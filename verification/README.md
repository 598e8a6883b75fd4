# BL-HAOS: a verified model

BL-HAOS bridges Home Assistant and Bluetooth speakers. Its work is done by per-speaker state
machines whose steps interleave at every `await`. This project models five of them in Dafny
and proves what they keep over every interleaving.

- **Playback queue and supervision** (`PlaybackQueue`, `QueueLaws`, `PlayerModel`,
  `PlayerInvariants`, `PlayerTheorems`, `PlayerSupervision`, `PlayerClaims`, `PlayerHistory`,
  `PlayerMoves`, `PlayerRepeats`, `PlayerReach`, `PlayerStranded`, `PlayerOverlap`,
  `PlayerSilence`, `PlayerExits`, `PlayerCommands`, `PlayerBridge`). Commands draw generation tickets, wait for the speaker's
  lock, stop the old decoder/player pair and spawn a new one; a watcher per pair acts on its
  exit. An event is one stretch of code between two suspension points.
- **Timeline and display text** (`Timeline`, `DisplayText`, `PercentDecoding`).
- **Reconnect scheduler** (`Backoff` and the `Reconnect` modules): grace, settle, exponential
  backoff, flap cooldown, circuit breaker, attempt ownership. Time is a real parameter.
- **Connection ownership and device records** (`ConnectionModel`, `ConnectionTheorems`,
  `ConnectionAnswers`, `ConnectionManager`): concurrent connects against BlueZ withdrawing or replacing objects.
- **Recorders** (`IncidentModel`, `IncidentLaws`, `IncidentRecorder`, `HealthModel`,
  `HealthLaws`, `HealthRegistry`): incremental state against the full history.

Each machine has three layers. A model gives every step as a function of its state. Classes
with the program's own fields and loops carry the same steps out in place, and each of their
methods is proved to take the model's step. Lemmas then prove what holds over all runs. A run
is a sequence of states from the initial one, each the step of the one before by an event
that was possible there.

## What does not hold

- *The newest generation can be lost.* A play sent while an item is still starting draws no
  ticket. If the start fails and a second play, which does draw one, queues behind the first,
  the first restarts the item under the old generation and the second returns at
  `player.py` lines 524-525. The watcher then refuses the exit at line 1797 and the queue says
  it plays for ever. `PlayerStranded.QueueIsStranded` is such a run; `PlayerTheorems.FencedRun`
  gives the exact condition, and `PlayerTheorems.CarefulRunWastesNothing` one that callers can
  meet.
- *The last command does not always win.* In the same run the lock goes quiet while a pair of
  generation 1 is active and the newest generation is 2. This happens at a quiet lock exactly
  when the newest generation was given up: drawn by a stop or a disconnect, or by a retry that
  left it unused (`PlayerClaims.LastCommandWinsIff`).
- *Overlapping commands can break the history.* A second next sent while the first waits for
  the old pair to exit plans the same target. It appends the new item to the history and moves
  to where the cursor already is (`PlayerOverlap.OverlapBreaksHistory`). Two overlapping
  previous commands remove one entry too many (`QueueLaws.PreviousTwiceBreaksHistory`). The
  history survives whatever moves still fit when they are carried out, and where it tells of a
  move, only those (`PlayerMoves.HistoryRunIff`).
- *More than thirty incident files can survive an append* when an old one cannot be removed
  (`IncidentLaws.StuckFileOutlivesRetention`); `IncidentLaws.NoOldFileSurvivesIff` is the exact
  condition.
- *The reported position can go back* when a probe finds, late, a duration shorter than what
  was already reported (`Timeline.ReportNeverGoesBackIff`).
- *A lost incident entry can be on disk.* If storage fails after all bytes of a line, for
  example when changing the file's mode, the entry is counted as dropped and is readable
  (`IncidentLaws.LostEntryMayBeReadable`). If storage fails inside a line, the next recorded
  entry joins the cut-off line (`IncidentLaws.RecordedEntryIsReadable`).
- *An unusable codec is not always just dropped*: recording one changes nothing, but an
  observation that carries one wipes the codec known before
  (`HealthLaws.CodecIsTheOneThatStands`).
- *Links can come up more often than they are seen to go down*: a connected speaker observed
  as reconnecting or unavailable is not counted as a disconnect (`HealthLaws.ChurnIsBounded`).

## Model

| member | source | states |
|---|---|---|
| `PlaybackQueue.PlaybackSession.constructor` | backend/bl_haos/ha/player.py:416-421 | A session made of validated items starts at the first one, playing, unshuffled, not repeating and with an empty history, and satisfies both queue invariants. |
| `PlaybackQueue.PlaybackSession.Locate` | backend/bl_haos/ha/player.py:471 | The loop over the items finds the first position that holds the very item looked for, or none. |
| `PlaybackQueue.PlaybackSession.Prepare` | backend/bl_haos/ha/player.py:456-473 | What a control call decides before it waits: the target index, whether previous restarts the item, and that next raises at the end of a queue that does not repeat. |
| `PlaybackQueue.PlaybackSession.Move` | backend/bl_haos/ha/player.py:533-540 | The whole new queue after next, previous or retry: history grown or popped, cursor moved, playing again, everything else unchanged. |
| `PlaybackQueue.PlaybackSession.ChangeShuffle` | backend/bl_haos/ha/player.py:486-495 | The whole new queue after a shuffle switch; setting the mode it already has changes nothing. |
| `PlaybackQueue.PlaybackSession.FinishItem` | backend/bl_haos/ha/player.py:1814-1845 | The whole new queue after both children exited: failed, repeated, advanced, wrapped or completed. |
| `PlaybackQueue.PlaybackSession.ReleaseItem` | backend/bl_haos/ha/player.py:1812-1845 | The session lets go of its pair and moves on as the outcome says. |
| `QueueLaws.PreviousStepsBack` | backend/bl_haos/ha/player.py:468-473 | If the history ends with the items before the cursor, a previous that does not restart plans index - 1: the identity search finds that position and the fallback for an empty history is not taken. |
| `QueueLaws.NavigateKeepsSuffix` | backend/bl_haos/ha/player.py:533-538 | Next, previous and retry keep the last `index` history entries equal to the items before the cursor. |
| `QueueLaws.ExitKeepsSuffix` | backend/bl_haos/ha/player.py:1829-1836 | So does every exit, through wraps, repeats and failures. |
| `QueueLaws.ToggleLaw` | backend/bl_haos/ha/player.py:486-495 | A shuffle switch in either direction keeps the items a permutation of the original ones and leaves everything up to the cursor in place; only items and mode change. |
| `QueueLaws.ToggleKeepsValid` | backend/bl_haos/ha/player.py:486-495 | A shuffle switch keeps the queue invariant and the history suffix. |
| `QueueLaws.ShuffleOffRestoresOrder` | backend/bl_haos/ha/player.py:492-495 | Switching shuffle off leaves, after the cursor, the original order with everything up to the cursor taken out. |
| `QueueLaws.ShuffleOnThenOff` | backend/bl_haos/ha/player.py:486-495 | On and then off at one index gives the list back if and only if its tail was in original order. |
| `QueueLaws.RepeatAllCycle` | backend/bl_haos/ha/player.py:1829-1836 | With repeat all, as many successes as there are items play each item exactly once and end at the index they began at. |
| `QueueLaws.RepeatOffCompletes` | backend/bl_haos/ha/player.py:1829-1844 | With repeat off from index i of n, the queue completes at success number n - i and not before. |
| `QueueLaws.RepeatOffPlays` | backend/bl_haos/ha/player.py:1829-1844 | Until then each item from the cursor on is played once, in order. |
| `QueueLaws.RepeatOneStays` | backend/bl_haos/ha/player.py:1829-1830 | With repeat one neither index nor history moves, and every success replays the item under the cursor. |
| `PlayerInvariants.StepKeeps` | backend/bl_haos/ha/player.py:865-972 | Every step of every command, exit and watcher keeps the invariant: children accounted for, tickets dated and the newest one alone, the lock holder working for the live session, failed implies no active pair, queue sound. |
| `PlayerInvariants.RunKeeps` | backend/bl_haos/ha/player.py:412-548 | The invariant holds at every point of every interleaving. |
| `PlayerTheorems.FenceStep` | backend/bl_haos/ha/player.py:475-484 | A step takes the newest generation away from the live session and every pending command if and only if it is a ticketed retry that gets the lock and finds its item no longer failed. |
| `PlayerTheorems.FencedRun` | backend/bl_haos/ha/player.py:524-527 | Over whole runs: the live session carries the newest generation, or a pending command does, throughout, if and only if no retry leaves its ticket unused. |
| `PlayerTheorems.CarefulRunWastesNothing` | backend/bl_haos/ha/player.py:475-484 | No ticket is wasted in a run in which no retry is issued while an earlier play without a ticket still waits for the same session. |
| `PlayerSupervision.QuietSessionIsSupervised` | backend/bl_haos/ha/player.py:1795-1811 | When nobody holds the lock or waits for it, a playing or paused session's pair is the active pair; its watcher will act on its exit if and only if the session carries the newest generation. |
| `PlayerClaims.NewestBelongs` | backend/bl_haos/ha/player.py:336-356 | At every point of every run, stops and disconnects included: a generation given up by a stop, a disconnect or a wasted ticket belongs to nobody, and any other to what plays, to what is being started or to a waiting command. |
| `PlayerClaims.QuietRunIsSupervisedIff` | backend/bl_haos/ha/player.py:1795-1811 | At a quiet lock of any run, a playing or paused session's pair is the active pair, and its watcher will act on its exit if and only if the newest generation was not given up. |
| `PlayerSupervision.SupervisedExitIsActedOn` | backend/bl_haos/ha/player.py:1793-1846 | The steps of that watcher, two or the one that is left when it already waits for the lock, consume the exit: the queue moves once, as the outcome says, the pair is no longer active, and the next item starts exactly if the queue still plays. |
| `PlayerSupervision.StreamExitIsActedOn` | backend/bl_haos/ha/player.py:1795-1865 | The exit of a plain stream frees the speaker, in one step, if and only if its pair is of the newest generation. |
| `PlayerSupervision.OnlyCurrentExitsAreHandled` | backend/bl_haos/ha/player.py:1795-1846 | An exit is acted on only by its own watcher, for the active pair of the newest generation, after both children have gone and if nobody did so before, and then the queue makes exactly the one move that the outcome calls for; a watcher that does not act leaves the session as it is. |
| `PlayerSupervision.ExitsAreHandledOnce` | backend/bl_haos/ha/player.py:1803-1812 | In no run is an exit acted on twice. |
| `PlayerRepeats.ExitsMoveTheQueue` | backend/bl_haos/ha/player.py:1812-1852 | Over runs: while no operation that moves the cursor or changes order or mode gets its turn, the queue is where as many successes as exits were acted on take it, up to pausing and resuming, or it failed there; so no exit moves it twice and nothing else moves it. |
| `PlayerRepeats.RepeatAllRun` | backend/bl_haos/ha/player.py:1829-1836 | Over runs with repeat all: when as many exits as items were acted on and none failed, each item ended exactly once and the cursor is where it was. |
| `PlayerRepeats.RepeatOffRun` | backend/bl_haos/ha/player.py:1829-1844 | Over runs with repeat off from index i of n: never more than n - i exits are acted on, the queue is completed exactly when all of them were, and the items end once each, in order. |
| `PlayerRepeats.RepeatOneRun` | backend/bl_haos/ha/player.py:1829-1830 | Over runs with repeat one: neither cursor nor history moves and every item that ended is the one under the cursor. |
| `PlayerSupervision.NoOrphansInAnyRun` | backend/bl_haos/ha/player.py:901-950 | At every point of every run each child ever spawned has exited, was told to stop, plays in the active pair or is being paired; and only the active pair can have a running child that was not told to stop. |
| `PlayerSupervision.InstallOverwritesNothing` | backend/bl_haos/ha/player.py:944 | A new pair is only ever installed where there is none, also after a partial spawn. |
| `PlayerSilence.StopSilences` | backend/bl_haos/ha/player.py:799-802 | After a stop no pair is active and no session is left; both children of the pair that was active have exited or were told to, and so has every other child but a decoder whose player is being spawned. |
| `PlayerSilence.StopSilencesUntilNextPair` | backend/bl_haos/ha/player.py:799-802 | Over runs: from a stop until the next pair is complete, nothing is active and every child ever spawned has exited or was told to, apart from a decoder whose player is being spawned. |
| `PlayerSilence.StopSilencesUntilNextTicket` | backend/bl_haos/ha/player.py:794-802 | Over runs: after a stop that meets no job, and until a command draws a ticket, nothing is active and every child ever spawned has exited or was told to, whoever waited for the lock. |
| `PlayerExits.ExitCodesDecide` | backend/bl_haos/ha/player.py:1814-1846 | Every step that acts on the exit of a session's pair follows the two exit codes: one other than 0 fails the queue with items, index and history as they were and starts nothing; with two codes of 0 the queue has not failed, and the next item starts unless it is completed. |
| `PlayerExits.CodesAreReported` | backend/bl_haos/ha/player.py:1793-1794 | In every run a child has an exit code exactly if it exited with that code. |
| `PlayerExits.FailedExitEndsCounting` | backend/bl_haos/ha/player.py:1822-1828 | Over runs, between moves: after an exit with a code other than 0 no further exit is acted on, and the queue stands failed where it was. |
| `PlayerExits.CountedExitsSucceeded` | backend/bl_haos/ha/player.py:1814-1821 | So between moves every exit acted on that another followed, and the last one of a queue that has not failed, had two codes of 0. |
| `PlayerCommands.StartTakesEffect` | backend/bl_haos/ha/player.py:412-424 | A queue that gets its turn at once is a new session of the newest generation, with its own items from the first one on, playing, and the job of that session starts. |
| `PlayerCommands.UrlTakesEffect` | backend/bl_haos/ha/player.py:853-858 | A stream that gets its turn at once leaves no session and starts a job of the newest generation. |
| `PlayerCommands.ControlRaisesIff` | backend/bl_haos/ha/player.py:446-473 | A control call raises before it waits, and leaves no trace, if and only if there is no session or it asks for the next item at the end of a queue that does not repeat all. |
| `PlayerCommands.ControlDrawsIff` | backend/bl_haos/ha/player.py:474-484 | A call that does not raise waits for the lock and touches nothing that plays; it draws a ticket if and only if it is a next, a previous or the retry of a failed item. |
| `PlayerCommands.MoveTakesEffect` | backend/bl_haos/ha/player.py:456-548 | A next goes one item on or, at the end, back to the first; a previous goes one back, or starts the item again if it is the first or has played for a while; a retry starts the failed item again. The session carries the newest generation, its job starts and nothing else plays. |
| `PlayerCommands.ModeTakesEffect` | backend/bl_haos/ha/player.py:485-522 | A mode is set as asked, a playing queue pauses and a paused one plays on; anything else changes nothing. No pair is touched and no job starts. |
| `PlayerSupervision.LatestStep` | backend/bl_haos/ha/player.py:475-484 | With no stop and no disconnect, a step loses the last command if and only if it wastes a ticket. |
| `PlayerSupervision.LatestRun` | backend/bl_haos/ha/player.py:524-527 | Over such runs: what plays or is being started is for the highest generation, or its command still waits, throughout, if and only if no ticket is wasted. |
| `PlayerSupervision.QuietPlaysNewestIff` | backend/bl_haos/ha/player.py:853-858 | At a quiet lock that is the same as: the active pair, if any, was spawned for the highest generation. |
| `PlayerClaims.LastCommandWinsIff` | backend/bl_haos/ha/player.py:853-858 | At a quiet lock of any run, stops and disconnects included, the active pair was spawned for the highest generation if and only if that generation was not given up by a stop, a disconnect or a wasted ticket. |
| `PlayerSupervision.SupersededCommandDoesNothing` | backend/bl_haos/ha/player.py:412-415 | A command superseded before it gets the lock only stops waiting: it spawns and changes nothing. |
| `PlayerSupervision.SupersededForGood` | backend/bl_haos/ha/player.py:853-856 | Over runs: a command that is superseded at any point while it waits does nothing when its turn comes, however much later. |
| `PlayerHistory.HistoryEndsWithThePast` | backend/bl_haos/ha/player.py:456-473 | When commands take turns, the last `index` history entries are always the items before the cursor, with exits, failures, stops and disconnects coming at any time. |
| `PlayerHistory.PreviousPlansOneBack` | backend/bl_haos/ha/player.py:468-473 | When commands take turns, a non-restarting previous always plans index - 1, so the search at line 471 succeeds and line 473 is never reached. |
| `PlayerOverlap.OverlapBreaksHistory` | backend/bl_haos/ha/player.py:529-538 | A concrete run, with the lock granted in arrival order, in which a second next overlaps a first: both land on the same index, the history no longer ends with the items before the cursor, and previous plans to stay where it is. |
| `PlayerMoves.FittingMovesKeepHistory` | backend/bl_haos/ha/player.py:529-540 | In every run, whatever overlaps, the history ends with the items before the cursor as long as each move still fits when it is carried out: next one on, previous one back, restart in place, or back to the first. |
| `PlayerMoves.KeptHistoryTellsFit` | backend/bl_haos/ha/player.py:529-540 | Where the history holds before and after a next, a previous from index 2 on or a restart from index 1 on, that move fitted. |
| `PlayerMoves.HistoryRunIff` | backend/bl_haos/ha/player.py:529-540 | In a run with only such moves and retries the history holds throughout if and only if every move fits. |
| `QueueLaws.MoveKeepsSuffixIff` | backend/bl_haos/ha/player.py:533-538 | The same for one move on one queue. |
| `QueueLaws.PreviousTwiceBreaksHistory` | backend/bl_haos/ha/player.py:468-473 | Two previous commands that planned the same step break the suffix: always from index 3 on, and at index 2 with nothing older in the history, where the fallback at line 473 is then reached. |
| `PlayerHistory.LiveQueueIsSound` | backend/bl_haos/ha/player.py:486-497 | Whatever overlaps, a live queue is a permutation of the list it was given, its index is in range and its history holds only its own items. |
| `PlayerHistory.FailureFreezesQueue` | backend/bl_haos/ha/player.py:1822-1828 | Over runs: a failed queue stays exactly as it is, index and history included, until a command begins or is granted, or its session is dropped. |
| `PlayerStranded.QueueIsStranded` | backend/bl_haos/ha/player.py:524-527 | A concrete run of sixteen events, each grant of the lock going to the longest waiting command, that wastes a ticket and ends quiet with both children gone successfully, the queue still playing its first item, no watcher left, the exit never acted on, and the active pair of generation 1 while the newest is 2. |
| `PlayerBridge.MediaPlayerBridge.constructor` | backend/bl_haos/ha/player.py:250-325 | A bridge starts with no session, no pair and generation 0. |
| `PlayerBridge.MediaPlayerBridge.InvalidatePlaybackSession` | backend/bl_haos/ha/player.py:341-356 | Draws the next generation and drops the session, whatever it was. |
| `PlayerBridge.MediaPlayerBridge.StopProcesses` | backend/bl_haos/ha/player.py:1685-1696 | The loop over the pair signals exactly those of its children that have not exited, and the pair is forgotten. |
| `PlayerBridge.MediaPlayerBridge.StartQueue` | backend/bl_haos/ha/player.py:412-413 | A validated queue draws a ticket, drops the old session and waits. |
| `PlayerBridge.MediaPlayerBridge.PlayUrl` | backend/bl_haos/ha/player.py:853-854 | A plain stream draws a ticket, drops the old session and waits. |
| `PlayerBridge.MediaPlayerBridge.Stop` | backend/bl_haos/ha/player.py:799-802 | Stop draws a ticket, drops the session and signals the pair without the lock. |
| `PlayerBridge.MediaPlayerBridge.ControlQueue` | backend/bl_haos/ha/player.py:446-479 | A control call plans its move, draws a ticket exactly if it is next, previous or a retry, and waits; or raises and changes nothing. |
| `PlayerBridge.MediaPlayerBridge.AdmitPlayback` | backend/bl_haos/ha/player.py:413-424 | A start or stream that got the lock starts only if its ticket is still the newest. |
| `PlayerBridge.MediaPlayerBridge.AdmitControl` | backend/bl_haos/ha/player.py:480-484 | A control call that got the lock gives up if its session was dropped or its ticket is not the newest. |
| `PlayerBridge.MediaPlayerBridge.PerformControl` | backend/bl_haos/ha/player.py:486-532 | What each of the six operations does to session, pair and lock. |
| `PlayerBridge.MediaPlayerBridge.ReplacePair` | backend/bl_haos/ha/player.py:529-532 | The session takes the ticket over and the old pair is signalled; with no pair the call goes straight on. |
| `PlayerBridge.MediaPlayerBridge.PlayPlannedItem` | backend/bl_haos/ha/player.py:533-542 | After the wait the planned move is carried out; on a dropped session the call raises and changes nothing. |
| `PlayerBridge.MediaPlayerBridge.SilenceFirst` | backend/bl_haos/ha/player.py:869-870 | Nothing plays when a new pair is about to be spawned. |
| `PlayerBridge.MediaPlayerBridge.DecoderDone` | backend/bl_haos/ha/player.py:873-914 | The decoder joins the children, or the job fails. |
| `PlayerBridge.MediaPlayerBridge.PlayerDone` | backend/bl_haos/ha/player.py:915-950 | The pair is installed with its watcher and given to the session of its generation, or the decoder alone is told to stop. |
| `PlayerBridge.MediaPlayerBridge.FailJob` | backend/bl_haos/ha/player.py:425-429 | A failed start marks its own session failed and no other. |
| `PlayerBridge.MediaPlayerBridge.WatcherWakes` | backend/bl_haos/ha/player.py:1793-1803 | The checks of a watcher whose children exited, before it waits for the lock. |
| `PlayerBridge.MediaPlayerBridge.WatcherActs` | backend/bl_haos/ha/player.py:1804-1811 | The same checks once it holds the lock. |
| `PlayerBridge.MediaPlayerBridge.FinishPair` | backend/bl_haos/ha/player.py:1812-1846 | The exit takes the pair out, moves the queue and starts the next item, if any. |
| `PlayerBridge.InvariantIsReady` | backend/bl_haos/ha/player.py:865-950 | Every state that satisfies the invariant is one the bridge's methods accept. |
| `Timeline.PositionIsUnpausedTime` | backend/bl_haos/ha/player.py:627-661 | Over any starts, pauses, resumes, clears and probes, repeated ones included, the position is the total unpaused time since the last start. |
| `Timeline.PositionNeverGoesBack` | backend/bl_haos/ha/player.py:627-634 | Until the next start the position never goes back. |
| `Timeline.ReportNeverGoesBackIff` | backend/bl_haos/ha/player.py:573-576 | The capped position does not go back if and only if the duration known later is not shorter than what was reported before. |
| `Timeline.LateDurationPullsBack` | backend/bl_haos/ha/player.py:1179-1186 | A concrete run in which a probe that answers late pulls the reported position back. |
| `Timeline.TimelineExists` | backend/bl_haos/ha/player.py:664-666 | There is a timeline exactly when a start has not been followed by a clear. |
| `Timeline.DurationIsItsOwn` | backend/bl_haos/ha/player.py:1179-1186 | The duration of a timeline was probed for its own stream, after its start, by a probe that was still current. |
| `Timeline.DurationIsTheLatest` | backend/bl_haos/ha/player.py:1178-1186 | The duration is that of the latest such probe since the start. |
| `Timeline.DurationIsUnknownBefore` | backend/bl_haos/ha/player.py:1178-1186 | Before any such probe it is unknown. |
| `Timeline.MediaTimeline.StartTimeline` | backend/bl_haos/ha/player.py:638-648 | A start replaces the timeline. |
| `Timeline.MediaTimeline.PauseTimeline` | backend/bl_haos/ha/player.py:650-655 | A pause folds the running clock into the position; without one it changes nothing. |
| `Timeline.MediaTimeline.ResumeTimeline` | backend/bl_haos/ha/player.py:658-662 | A resume starts the clock only if it does not run. |
| `Timeline.MediaTimeline.ClearTimeline` | backend/bl_haos/ha/player.py:665-666 | The timeline is gone. |
| `Timeline.MediaTimeline.ProbeAnswered` | backend/bl_haos/ha/player.py:1178-1186 | A duration counts only for a current probe of the stream that plays. |
| `Timeline.MediaTimeline.TimelinePosition` | backend/bl_haos/ha/player.py:629-634 | The position plus the running clock, at least zero. |
| `Timeline.MediaTimeline.GetTimeline` | backend/bl_haos/ha/player.py:561-579 | The reported position, before rounding, is the smaller of position and known duration. |
| `DisplayText.Text` | backend/bl_haos/ha/player.py:588-608 | A value is shown if and only if something is left after stripping and cutting to 128 characters, no depth of percent-decoding of that contains `://`, and its full decoding is no URI and has no control character; what is shown is that prefix of the stripped value. |
| `DisplayText.Display` | backend/bl_haos/ha/player.py:594-608 | The decode loop, for any decoder whose every change shortens the text: it ends, and decides safety at every depth. |
| `DisplayText.ContainsSeparator` | backend/bl_haos/ha/player.py:596 | The search finds `://` exactly when it is there. |
| `DisplayText.DecodingSettles` | backend/bl_haos/ha/player.py:595-601 | Decoding reaches its fixpoint within as many rounds as the text has characters. |
| `DisplayText.FullHoldsNoEscape` | backend/bl_haos/ha/player.py:598-601 | What the loop ends on has no escape left to decode. |
| `DisplayText.ShownAgainIff` | backend/bl_haos/ha/player.py:592-593 | A shown text is shown again unchanged if and only if it does not end in space, which only a cut one can. |
| `PercentDecoding.UnquoteStaysIff` | backend/bl_haos/ha/player.py:598-600 | Decoding leaves a text alone exactly when it holds no escape, and otherwise shortens it. |
| `PercentDecoding.DecodingUndoesEncoding` | backend/bl_haos/ha/player.py:598 | Decoding gives back any text from any spelling of it as percent-encoded UTF-8 (section 2.1 of RFC 3986), whichever characters are escaped and whatever the case of each digit. |
| `PercentDecoding.CaseDoesNotMatter` | backend/bl_haos/ha/player.py:598 | Changing the case of the digits of escapes changes nothing of what a text decodes to. |
| `PercentDecoding.FirstIsItsEncoding` | backend/bl_haos/ha/player.py:598 | Of decoded bytes a character is read only where its own UTF-8 encoding stands; everything else becomes U+FFFD. |
| `PercentDecoding.MalformedIsLongest` | backend/bl_haos/ha/player.py:598 | Each U+FFFD takes at least as many bytes as the malformed part has in common with any character's encoding. |
| `PercentDecoding.MalformedIsBeginning` | backend/bl_haos/ha/player.py:598 | And no more: what it takes beyond one byte is the beginning of some character's encoding. |
| `DisplayText.SpellingHidesNothing` | backend/bl_haos/ha/player.py:595-607 | A text that may not be shown may not be shown in any percent-encoded spelling either. |
| `DisplayText.UriIsNeverShown` | backend/bl_haos/ha/player.py:596-597 | A text with `://` in it may not be shown. |
| `DisplayText.SchemeIsNeverShown` | backend/bl_haos/ha/player.py:602-607 | A text that begins with an ASCII scheme, a colon and something visible may not be shown in any spelling; the text itself has no percent sign after the scheme. |
| `DisplayText.ControlIsNeverShown` | backend/bl_haos/ha/player.py:602-607 | Nor may, in any spelling, a text without percent sign that holds a control character of either block. |
| `DisplayText.PlainTextIsSafe` | backend/bl_haos/ha/player.py:595-608 | A text without percent sign, colon and control characters may be shown. |
| `DisplayText.SpaceAroundIsDropped` | backend/bl_haos/ha/player.py:592-593 | A text between spaces is shown as it is up to 128 characters, and cut there if longer. |
| `Backoff.DelayIsGeometric` | backend/bl_haos/bluetooth/reconnect.py:147-166 | Without jitter the delay computed through logarithms and mantissas is min(cap, initial * multiplier^step), for all legal parameters and every step. |
| `Backoff.JitterIsBounded` | backend/bl_haos/bluetooth/reconnect.py:166 | With jitter it lies between that value and min(cap, 1.15 times it). |
| `Backoff.FloorIsIdle` | backend/bl_haos/bluetooth/reconnect.py:164-165 | The floor never changes the result. |
| `Backoff.NegativeStepIsNone` | backend/bl_haos/bluetooth/reconnect.py:149 | A negative step counts as step 0. |
| `Backoff.SaturationTest` | backend/bl_haos/bluetooth/reconnect.py:156-158 | The comparison of logarithms holds exactly when the progression has reached the cap. |
| `Backoff.ScalingIsPower` | backend/bl_haos/bluetooth/reconnect.py:161-163 | The mantissa and exponent arithmetic multiplies by multiplier^step. |
| `Backoff.DelayGrowsAndSaturates` | backend/bl_haos/bluetooth/reconnect.py:147-166 | The delay grows with the step and stays at the cap once it is there. |
| `ReconnectTheorems.OneAttemptAtATime` | backend/bl_haos/bluetooth/reconnect.py:303-309 | In every run at most one attempt of the registered profile is alive. |
| `ReconnectTheorems.OneAttemptAtAll` | backend/bl_haos/bluetooth/reconnect.py:303-309 | While the address was never unregistered, at most one attempt of any kind is alive. |
| `ReconnectTheorems.StaleAttemptIsIsolated` | backend/bl_haos/bluetooth/reconnect.py:103-107 | Whatever becomes of an attempt of an earlier profile, the registered profile and its attempt slot stay as they are. |
| `ReconnectTheorems.UnregisteredStaysStale` | backend/bl_haos/bluetooth/reconnect.py:135-144 | Every attempt alive when an address is unregistered is stale for the rest of the run, however often the address is registered again. |
| `ReconnectPacing.DeadlinesNeverMoveForward` | backend/bl_haos/bluetooth/reconnect.py:359-436 | During an outage no busy, presence, cancel or failure step brings a retry time or breaker deadline forward; only failures count, none comes before the breaker hold ends, and from the limit on each starts a new hold. |
| `ReconnectPacing.OutageRateBound` | backend/bl_haos/bluetooth/reconnect.py:414-436 | Any T seconds of an outage hold at most max_failures + floor(T / breaker_cooldown) failed attempts. |
| `ReconnectFlaps.FlapWindowRefinesRecord` | backend/bl_haos/bluetooth/reconnect.py:332-347 | In every run the flap window is exactly the dropouts armed since the last clear that lie within 120 s of the newest, holds fewer than six, and no six dropouts within 120 s go without one that sets the cooldown. |
| `ReconnectFlaps.CooldownHoldsAttempts` | backend/bl_haos/bluetooth/reconnect.py:296-302 | Over runs: once a dropout sets the cooldown, no tick schedules an attempt before it ends, as long as the profile stays registered. |
| `ReconnectGrace.AttemptFollowsGrace` | backend/bl_haos/bluetooth/reconnect.py:281-303 | If a speaker is up with no attempt in flight, the next scheduled attempt is preceded by a drop report that no connected report heard by the profile broke, by a tick that found the drop five seconds old, and by a wait of at least min(cap, initial) after that; and it comes no earlier than 15 s after the recorded link-up. The profile may be switched off and on meanwhile. |
| `ReconnectGrace.AttemptFollowsReport` | backend/bl_haos/bluetooth/reconnect.py:195-303 | The same from any report of a connection that the profile hears with no attempt in flight. |
| `ReconnectWaits.AttemptFollowsFailure` | backend/bl_haos/bluetooth/reconnect.py:414-436 | Over runs: in an outage, after a failed attempt the next one is scheduled no sooner than min(cap, initial * multiplier^(step + 1)), and from the failure limit on no sooner than the breaker cooldown. |
| `ReconnectWaits.AttemptFollowsBusy` | backend/bl_haos/bluetooth/reconnect.py:359-371 | Over runs: after a busy answer no sooner than the backoff of its step and the settle time of 15 s. |
| `ReconnectWaits.AttemptFollowsCancel` | backend/bl_haos/bluetooth/reconnect.py:397-406 | Over runs: after a cancelled attempt no sooner than the backoff of its step. |
| `ReconnectWaits.ArmingTakesTheLatest` | backend/bl_haos/bluetooth/reconnect.py:318-330 | A tick that arms the backoff sets the retry time to exactly the latest of the old one, the end of the delay, and the ends of the breaker hold and of a running cooldown. |
| `ReconnectWaits.StepIsFailures` | backend/bl_haos/bluetooth/reconnect.py:414-418 | In every run the backoff step is the number of failures that count. |
| `ReconnectWaits.ConnectionResets` | backend/bl_haos/bluetooth/reconnect.py:195-211 | A connection that is heard of, or an attempt that succeeds, leaves no failure, no step, no pending drop and no deadline. |
| `ReconnectWaits.FailuresAddUp` | backend/bl_haos/bluetooth/reconnect.py:414-418 | In an outage the failures that count are those there were and the failed attempts since. |
| `ReconnectWaits.WaitsGrow` | backend/bl_haos/bluetooth/reconnect.py:147-166 | Over runs: after failure number i since the link was up, the next attempt is scheduled no sooner than min(cap, initial * multiplier^i). |
| `ReconnectWaits.LinkUpIsRecorded` | backend/bl_haos/bluetooth/reconnect.py:195-211 | The time of the link-up is that of the event in which the profile becomes connected, and no other event changes it. |
| `ReconnectWaits.SettleHoldsAttempts` | backend/bl_haos/bluetooth/reconnect.py:296-302 | Over runs: no attempt is scheduled within 15 s of a link-up, as long as the profile stays registered. |
| `ReconnectProgress.WaitsAreBounded` | backend/bl_haos/bluetooth/reconnect.py:414-436 | In every run no deadline lies further ahead than the longest of the backoff cap, the flap cooldown, the breaker cooldown and the settle time. |
| `ReconnectProgress.AttemptComesInTime` | backend/bl_haos/bluetooth/reconnect.py:296-309 | Over runs: a waiting profile with no attempt in flight gets one from the first tick that comes that long after the event before it. |
| `ReconnectProgress.DropIsNoted` | backend/bl_haos/bluetooth/reconnect.py:212-235 | A drop that an enabled, idle or connected profile hears of is noted once, and by no other profile. |
| `ReconnectProgress.GraceDecides` | backend/bl_haos/bluetooth/reconnect.py:281-294 | A tick that finds a drop five seconds old makes the profile wait for an attempt; one that comes sooner leaves it alone. |
| `ReconnectProgress.NeverStuck` | backend/bl_haos/bluetooth/reconnect.py:377-436 | In every run a profile that says it reconnects has an attempt that is connecting. |
| `ReconnectProgress.EndedAttemptWaits` | backend/bl_haos/bluetooth/reconnect.py:386-436 | An attempt that did not connect is over and leaves its profile broken, from the failure limit on, or backing off; a busy answer clears a pending drop. |
| `ReconnectProgress.AttemptRunsIff` | backend/bl_haos/bluetooth/reconnect.py:377-385 | A scheduled attempt connects if and only if its profile is still registered, switched on and not held by the breaker. |
| `ReconnectProgress.ReleaseEmptiesSlot` | backend/bl_haos/bluetooth/reconnect.py:103-107 | The done callback of the attempt in the slot empties it, and changes nothing about whether an attempt can be scheduled. |
| `ReconnectProgress.RegistrationTakesEffect` | backend/bl_haos/bluetooth/reconnect.py:110-125 | With the gate open a registration leaves a profile switched as asked, fresh or otherwise untouched. |
| `ReconnectProgress.ReportRegistersIff` | backend/bl_haos/bluetooth/reconnect.py:179-194 | A report about an unknown speaker registers it if and only if it is an audio sink that is trusted, paired or connected, and the gate is open. |
| `ReconnectProgress.SwitchedOffIsLeftAlone` | backend/bl_haos/bluetooth/reconnect.py:179-294 | A profile that is switched off is left alone by reports and ticks. |
| `ReconnectProgress.SuppressedAreCounted` | backend/bl_haos/bluetooth/reconnect.py:195-205 | Over runs: the suppressed flaps are the drops that a connection cleared within the grace. |
| `ReconnectEngine.AutoReconnectEngine.constructor` | backend/bl_haos/bluetooth/reconnect.py:68-98 | An engine starts empty, enabled and within its legal parameters. |
| `ReconnectEngine.AutoReconnectEngine.RegisterSpeaker` | backend/bl_haos/bluetooth/reconnect.py:110-125 | Registration adds a fresh profile or updates the flag of the one there is; with the gate closed it changes nothing. |
| `ReconnectEngine.AutoReconnectEngine.UnregisterSpeaker` | backend/bl_haos/bluetooth/reconnect.py:136-144 | The profile and the claim on its attempt are gone. |
| `ReconnectEngine.AutoReconnectEngine.SetGlobalEnabled` | backend/bl_haos/bluetooth/reconnect.py:128-133 | Closing the gate unregisters. |
| `ReconnectEngine.AutoReconnectEngine.OnDeviceEvent` | backend/bl_haos/bluetooth/reconnect.py:179-235 | The branches of a device report, including the abort with no change when the gate is closed and the profile is missing. |
| `ReconnectEngine.AutoReconnectEngine.NoteReport` | backend/bl_haos/bluetooth/reconnect.py:195-235 | A connected report clears a pending drop as a suppressed flap and resets the pacing; a disconnected one starts the grace window once. |
| `ReconnectEngine.AutoReconnectEngine.RecordFlap` | backend/bl_haos/bluetooth/reconnect.py:333-347 | The window is pruned and extended, and at the limit cleared into a cooldown. |
| `ReconnectEngine.AutoReconnectEngine.ArmBackoff` | backend/bl_haos/bluetooth/reconnect.py:318-330 | Arming notes the flap, and schedules no earlier than the delay, the cooldown and the breaker say. |
| `ReconnectEngine.AutoReconnectEngine.Tick` | backend/bl_haos/bluetooth/reconnect.py:275-309 | One pass over the profile, with the delay that the logarithmic form gives for the jitter drawn. |
| `ReconnectEngine.AutoReconnectEngine.ScheduleIfDue` | backend/bl_haos/bluetooth/reconnect.py:296-309 | An attempt is scheduled exactly if one is due and the slot is free. |
| `ReconnectEngine.AutoReconnectEngine.BeginAttempt` | backend/bl_haos/bluetooth/reconnect.py:377-381 | An attempt gives up at once unless its profile is still registered, enabled and unbroken. |
| `ReconnectEngine.AutoReconnectEngine.EndAttempt` | backend/bl_haos/bluetooth/reconnect.py:386-436 | Success, busy, failure and cancellation change the profile only if it is still the registered one. |
| `ReconnectEngine.AutoReconnectEngine.RecordFailure` | backend/bl_haos/bluetooth/reconnect.py:414-436 | A failure counts, steps the backoff and from the limit on opens the breaker. |
| `ReconnectEngine.AutoReconnectEngine.ReleaseInflight` | backend/bl_haos/bluetooth/reconnect.py:104-107 | The slot is freed only by the attempt that is in it. |
| `ConnectionTheorems.StepKeeps` | backend/bl_haos/bluetooth/manager.py:620-673 | Every signal and every step of a task keeps the locks and the tasks that work under them in one-to-one correspondence. |
| `ConnectionTheorems.OneOwnerPerAdapter` | backend/bl_haos/bluetooth/manager.py:633-636 | In every run no two connects work under the same adapter. |
| `ConnectionTheorems.ContenderIsRefused` | backend/bl_haos/bluetooth/manager.py:632-635 | A connect that resolves to a record on a held adapter raises in that very step and leaves no task behind. |
| `ConnectionTheorems.AdapterIsTakenOnlyWhenFree` | backend/bl_haos/bluetooth/manager.py:634-636 | Nobody is queued: a task that comes to work under an adapter does so in a step of its own, and nobody held that adapter. |
| `ConnectionTheorems.OthersStandStill` | backend/bl_haos/bluetooth/manager.py:620-673 | No event, a release included, changes the task of another call. |
| `ConnectionTheorems.AdapterIsHeldThroughout` | backend/bl_haos/bluetooth/manager.py:636-673 | A connect that took its adapter holds it without a gap until it ends; at any time in between nobody else works under that adapter. |
| `ConnectionTheorems.CallsEndOnce` | backend/bl_haos/bluetooth/manager.py:620-673 | In every run each call returns or raises at most once. |
| `ConnectionTheorems.EveryExitReleases` | backend/bl_haos/bluetooth/manager.py:636-673 | A task that returns or raises, in whatever way, is gone and holds no adapter. |
| `ConnectionTheorems.TrueMeansUsable` | backend/bl_haos/bluetooth/manager.py:637-673 | True is returned only for a record that is mapped and attached at that instant. |
| `ConnectionTheorems.ResolvedMeansUsable` | backend/bl_haos/bluetooth/manager.py:368-400 | ensure_device returns only a record that is mapped and attached at that instant. |
| `ConnectionTheorems.ResolvingKeepsAttached` | backend/bl_haos/bluetooth/manager.py:379-400 | It never replaces or forgets an attached record and never alters an existing one, whatever signals came while it waited. |
| `ConnectionTheorems.InsertLeavesNoDuplicate` | backend/bl_haos/bluetooth/manager.py:308-318 | A device that appears leaves no offline record of its address mapped anywhere. |
| `ConnectionTheorems.WithdrawalKeepsKnown` | backend/bl_haos/bluetooth/manager.py:259-274 | A withdrawn object's record stays mapped, detached and disconnected, if and only if it is trusted or paired; no other mapping changes. |
| `ConnectionTheorems.KnownSpeakersAreKept` | backend/bl_haos/bluetooth/manager.py:254-318 | While the transport lives no event loses a trusted or paired speaker: its record stays where it is mapped, a new object takes over that path, or a live record of its address supersedes it while it is offline. |
| `ConnectionAnswers.TrustAnswersIff` | backend/bl_haos/bluetooth/manager.py:667-673 | A connect whose link came up returns True for its own record if and only if that record is mapped and attached at that instant, and raises otherwise. |
| `ConnectionAnswers.LinkedConnectReturnsItsRecord` | backend/bl_haos/bluetooth/manager.py:636-673 | Over runs: the record a connect answers for is the one it took its adapter for, whatever came in between. |
| `ConnectionAnswers.TrustingMeansLinked` | backend/bl_haos/bluetooth/manager.py:654-667 | In every run a connect that trusts is one whose own link came up. |
| `ConnectionAnswers.ConnectAnswersWhenFound` | backend/bl_haos/bluetooth/manager.py:620-641 | In the step in which a connect finds its record it raises exactly if the adapter's name is not one or is held, returns at once exactly if the link is up and no reset was asked, and else takes the adapter; without a record it raises once every adapter was asked. |
| `ConnectionAnswers.ResolveAnswers` | backend/bl_haos/bluetooth/manager.py:368-400 | ensure_device returns the record found in the cache, meanwhile or anew, and none only after every adapter was asked in vain. |
| `ConnectionAnswers.FoundIsUsable` | backend/bl_haos/bluetooth/manager.py:368-400 | The record found is mapped and attached. |
| `ConnectionAnswers.NewRecordIsTheAnswer` | backend/bl_haos/bluetooth/manager.py:389-397 | A record made while resolving says what BlueZ answered for the address under the adapter asked, and no other record is touched. |
| `ConnectionAnswers.AsksInOrder` | backend/bl_haos/bluetooth/manager.py:374-400 | A resolution that goes on asks the adapters that are left, in order, for the same address. |
| `ConnectionAnswers.ScanAnswers` | backend/bl_haos/bluetooth/manager.py:645-651 | After the scan a connect raises exactly if its record is unusable; a link that is up is dropped first exactly if a reset was asked. |
| `ConnectionAnswers.LinkAnswers` | backend/bl_haos/bluetooth/manager.py:654-666 | A link that came up is on record and goes on to trusting; every other end of linking raises, and a stale object is marked offline. |
| `ConnectionAnswers.AddedTakesEffect` | backend/bl_haos/bluetooth/manager.py:233-243 | An object that appears is mapped at its path with what was reported of it, and no attached record at another path is touched. |
| `ConnectionAnswers.ChangedTakesEffect` | backend/bl_haos/bluetooth/manager.py:275-290 | Changed properties reach the record at the path and no other; at an unknown path they make one. |
| `ConnectionAnswers.LostTakesEffect` | backend/bl_haos/bluetooth/manager.py:190-201 | When the transport is lost no record is usable any more, and the calls themselves go on. |
| `ConnectionAnswers.PathsAreDistinct` | backend/bl_haos/bluetooth/manager.py:385-388 | Two addresses have the same object path only if they are the same up to case. |
| `ConnectionManager.BluetoothManager.GetDeviceByAddress` | backend/bl_haos/bluetooth/manager.py:357-365 | The loop returns a mapped record of the address, and none only if there is none. |
| `ConnectionManager.BluetoothManager.DropDetachedDuplicates` | backend/bl_haos/bluetooth/manager.py:308-318 | The loop removes exactly the offline records of the same address at other paths. |
| `ConnectionManager.BluetoothManager.Insert` | backend/bl_haos/bluetooth/manager.py:394-396 | A new record takes its path after its offline duplicates are forgotten. |
| `ConnectionManager.BluetoothManager.MarkDetached` | backend/bl_haos/bluetooth/manager.py:267 | The record is detached and disconnected, nothing else. |
| `ConnectionManager.BluetoothManager.OnInterfacesAdded` | backend/bl_haos/bluetooth/manager.py:241-243 | The whole new state when an object appears. |
| `ConnectionManager.BluetoothManager.OnInterfacesRemoved` | backend/bl_haos/bluetooth/manager.py:259-274 | The whole new state when an object is withdrawn. |
| `ConnectionManager.BluetoothManager.OnPropertiesChanged` | backend/bl_haos/bluetooth/manager.py:283-290 | The whole new state when properties change, a new object included. |
| `ConnectionManager.BluetoothManager.MarkDbusDisconnected` | backend/bl_haos/bluetooth/manager.py:190-201 | A lost transport forgets every record and no task. |
| `ConnectionManager.BluetoothManager.Leave` | backend/bl_haos/bluetooth/manager.py:628-636 | A task ends and its adapter is free. |
| `ConnectionManager.BluetoothManager.Conclude` | backend/bl_haos/bluetooth/manager.py:629-632 | What a finished resolution means for ensure_device and for connect_device. |
| `ConnectionManager.BluetoothManager.TakeAdapter` | backend/bl_haos/bluetooth/manager.py:632-641 | The refusals of connect_device, its early return, and taking the adapter. |
| `ConnectionManager.BluetoothManager.EnsureDevice` | backend/bl_haos/bluetooth/manager.py:368-384 | ensure_device up to its first wait. |
| `ConnectionManager.BluetoothManager.ObjectAnswered` | backend/bl_haos/bluetooth/manager.py:385-400 | What an answer does: return an attached record that appeared meanwhile, insert a new one, or ask the next adapter. |
| `ConnectionManager.BluetoothManager.ScanStopped` | backend/bl_haos/bluetooth/manager.py:645-650 | The check after the scan stopped, and whether an existing link is dropped first. |
| `ConnectionManager.BluetoothManager.LinkDropped` | backend/bl_haos/bluetooth/manager.py:649-651 | The existing link is down. |
| `ConnectionManager.BluetoothManager.Settled` | backend/bl_haos/bluetooth/manager.py:651-654 | The check before connecting. |
| `ConnectionManager.BluetoothManager.LinkDone` | backend/bl_haos/bluetooth/manager.py:654-666 | A link is up, or the connect raises, detaching the record of a stale object. |
| `ConnectionManager.BluetoothManager.TrustDone` | backend/bl_haos/bluetooth/manager.py:667-673 | The check after trusting, and the final answer. |
| `IncidentLaws.WarningsAreConserved` | backend/bl_haos/incidents.py:119-151 | With emits at any time and failing writes, every counted warning is in exactly one place: the pending counts or the sample in flight, a recorded entry, or a lost one. |
| `IncidentLaws.DroppedCountsLosses` | backend/bl_haos/incidents.py:138-147 | `dropped` is exactly the number of lost entries. |
| `IncidentLaws.EntriesKnowTheirPast` | backend/bl_haos/incidents.py:130-135 | An entry carries the number of entries lost before it, and calls itself the start of monitoring exactly if none was recorded before it. |
| `IncidentLaws.FilesStayCapped` | backend/bl_haos/incidents.py:98-100 | No daily file passes its cap, whatever the clock and storage do. |
| `IncidentLaws.NoOldFileSurvivesIff` | backend/bl_haos/incidents.py:87-95 | No file older than thirty days survives an append if and only if storage let it remove them all, whether or not it could then open its own file. |
| `IncidentLaws.ThirtyDaysAreKept` | backend/bl_haos/incidents.py:87-95 | An append removes no file of the last thirty days, whatever storage does, and every older one unless it fails before its own file is open. |
| `IncidentLaws.AppendBoundsFiles` | backend/bl_haos/incidents.py:87-104 | At most thirty files survive an append that storage lets remove the old ones, if none is dated in the future. |
| `IncidentLaws.AtMostThirtyFiles` | backend/bl_haos/incidents.py:84-104 | With a date that never goes back, at most thirty dated files survive any append of any run that storage lets remove the old ones. |
| `IncidentLaws.StuckFileOutlivesRetention` | backend/bl_haos/incidents.py:94-95 | Where that fails: for any n above thirty, a run of one sample after which n files remain because the oldest cannot be removed. |
| `IncidentLaws.RecordedEntryIsReadable` | backend/bl_haos/incidents.py:97-104 | A recorded entry is a line of its own in today's file if and only if that file had no cut-off line at its end. |
| `IncidentLaws.LostEntryMayBeReadable` | backend/bl_haos/incidents.py:136-142 | An append that fails while writing is counted as lost, yet its line is in the file if and only if storage failed only after all of its bytes. |
| `IncidentLaws.DayFileIsTheLog` | backend/bl_haos/incidents.py:84-104 | While a day is retained and no append fails inside its line, the lines of its file are the old ones and then those of the completed appends, in order. |
| `IncidentLaws.SampleIsPassedOverIff` | backend/bl_haos/incidents.py:121-135 | A sample is passed over if and only if it is not forced, no warning was counted, nothing changed since the last recorded one, and that was less than an hour ago. |
| `IncidentLaws.LastRecordedIsRemembered` | backend/bl_haos/incidents.py:147-151 | In every run what a sample is compared with is the last recorded one and its time. |
| `IncidentLaws.AppendAnswers` | backend/bl_haos/incidents.py:97-104 | Without a fault a line is written if and only if today's file keeps within its cap, and otherwise refused; a fault fails the append. |
| `IncidentLaws.FailureIsOnRecord` | backend/bl_haos/incidents.py:135-149 | A storage error is on record exactly from a failed append until the next recorded one. |
| `IncidentRecorder.IncidentRecorder.Emit` | backend/bl_haos/incidents.py:47-61 | A warning of another logger adds one to its category; the recorder's own adds nothing. |
| `IncidentRecorder.IncidentRecorder.BeginSample` | backend/bl_haos/incidents.py:121-135 | A sample takes the counts, and returns at once exactly if nothing is new within the hour. |
| `IncidentRecorder.IncidentRecorder.Prune` | backend/bl_haos/incidents.py:87-94 | The loop removes exactly the files that are too old, or some of them if one cannot be removed. |
| `IncidentRecorder.IncidentRecorder.Append` | backend/bl_haos/incidents.py:85-104 | The whole new set of files for any way in which storage fails, and the answer. |
| `IncidentRecorder.IncidentRecorder.FinishSample` | backend/bl_haos/incidents.py:136-151 | What the answer does to the recorder. |
| `HealthLaws.RecordsAreIndependent` | backend/bl_haos/health.py:376-458 | The record of a speaker depends only on the reports about that speaker. |
| `HealthLaws.CountersAreTheEdges` | backend/bl_haos/health.py:395-403 | Connects and disconnects are the numbers of up and down edges in the observed states, whatever flap and codec reports lie between. |
| `HealthLaws.ChurnIsBounded` | backend/bl_haos/health.py:395-403 | Disconnects plus one if connected never exceed connects, and the gap is exactly the number of links lost into another state. |
| `HealthLaws.FlapsAreCounted` | backend/bl_haos/health.py:428-436 | The suppressed flaps are the number of flap reports. |
| `HealthLaws.FailureIsTheOneThatStands` | backend/bl_haos/health.py:389-407 | The stored failure is the latest one not followed by a clean connected observation, and none is stored if there is no such one. |
| `HealthLaws.StateIsTheLastObserved` | backend/bl_haos/health.py:404-408 | The state is the last observed one; a record made by a flap or codec report is unknown until then. |
| `HealthLaws.TransitionIsFromTheOneBefore` | backend/bl_haos/health.py:404-410 | The transition of a record comes from the state observed before the last one; from unknown, if a flap or a codec made the record; and from nothing, if its only observation did. |
| `HealthLaws.AttemptIsTheLastObserved` | backend/bl_haos/health.py:404-410 | The attempt of a record is that of the last observation. |
| `HealthLaws.CodecIsTheOneThatStands` | backend/bl_haos/health.py:414-458 | The codec is the latest named one unless an observation carried an unusable one since; recording an unusable one changes nothing. |
| `HealthLaws.ReasonIsTheLatestGiven` | backend/bl_haos/health.py:415-434 | The link reason is that of the latest failure or flap that gave one. |
| `HealthRegistry.HealthRegistry.constructor` | backend/bl_haos/health.py:344-350 | A registry starts without records. |
| `HealthRegistry.HealthRegistry.ObserveSpeaker` | backend/bl_haos/health.py:387-417 | The whole new registry after an observation; one with a codec that is too long for its field raises and changes nothing. |
| `HealthRegistry.HealthRegistry.RecordSuppressedFlap` | backend/bl_haos/health.py:428-437 | The whole new registry after a suppressed flap, for a known or unknown speaker. |
| `HealthRegistry.HealthRegistry.RecordSpeakerCodec` | backend/bl_haos/health.py:447-458 | The whole new registry after a codec report. |

## Left out

- PlayerSupervision.LatestRun: speaks of runs with no stop and no disconnect, which draw a generation that nothing is spawned for; `PlayerClaims.NewestBelongs` has no such condition.
- PlayerHistory.HistoryEndsWithThePast: asks that commands take turns; `PlayerMoves.FittingMovesKeepHistory` is what holds whatever overlaps.
- PlayerMoves.HistoryRunIff: leaves out previous below index 2 and restart below index 1, where entries of earlier rounds may happen to be right although the move does not fit.
- PlayerRepeats.ExitsMoveTheQueue: speaks of the time between moves and mode changes, since these move the queue as they like.
- ReconnectGrace.AttemptFollowsGrace: asks that the profile stays registered, since a new profile starts idle.
- ReconnectPacing.OutageRateBound: an outage ends when a connect is reported or succeeds or the profile is replaced, because each of these resets the count.
- IncidentLaws.AtMostThirtyFiles: asks that storage can remove the old files and that the date does not go back; the first condition is exact for old files by `IncidentLaws.NoOldFileSurvivesIff`.
- IncidentLaws.DayFileIsTheLog: excludes appends that fail inside their line; the two lemmas before it say what those leave behind.
- Timeline.MediaTimeline.GetTimeline: does not round to three decimals.
- DisplayText.Text: values that are not text, and lone surrogates, which are not characters here.
- PlayerBridge.MediaPlayerBridge.StopProcesses: SIGCONT before SIGTERM, the bounded wait and the reaper that sends SIGKILL are not modelled; an exit may come at any time or never.
- The lock is granted to any waiter, which covers asyncio's arrival order and every other one.
- The player's `states`, `last_urls` and volumes, titles and URLs of items (and that completion blanks the URLs), and the validation of a queue request.
- A stop while a pair is being spawned does not cancel the spawn, here as in the program; late writes of the stop branch to `states` and the timeline are not modelled.
- The timeline is a machine of its own: which player step calls which of its methods is not modelled, and whether an item has played for three seconds is part of the event.
- Sessions, pairs, profiles and device records are known by a number where the program compares objects by identity.
- Consecutive waits between which nothing shared is written are one wait: sink lookup, codec calls and decoder spawn; stopping a scan and the pause after it.
- Sink and spawn failures surface as `MediaPlayerError`; cancellation of player tasks and `async_shutdown`; a broken pipe making the audio pump terminate the decoder.
- Floating point: times and delays are reals, and log, log2, exp2 and frexp are any functions that obey their laws.
- The reconnect engine's start and stop, its preferred adapter, and its health reports.
- Addresses are normalised before they reach the models; the scheduler and the player are modelled for one address, as all their maps are keyed by it.
- A timeout, a cancellation and an unexpected exception of a connect are one event that releases the adapter.
- Pairing windows, `remove_device`, adapters appearing and disappearing, and the properties of a device beyond path, address, adapter, connected and trusted or paired.
- Matching a log message to its category, the findings of an incident entry and its JSON form; a line is any text without a newline.
- Component health, the lifecycle, the status of a snapshot, observation times, and redaction of details.
- D-Bus, subprocesses, web routes, configuration, discovery and diagnostics: they act on these machines only through the outcomes that the events carry.
- What follows a lost D-Bus transport beyond forgetting the records: the cleared adapters, the failing requests, which end as any failed answer does, and the reinitialisation that loads the objects again.
