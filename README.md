# AmpsMotion match core in Dafny

This project models the engine of AmpsMotion, an officiating and broadcast application for
AmpeSports. The modelled parts are:

- the scoring state machine of a match (1v1 and team modes) with its undo stack;
- the rotating player queue of team mode;
- the rules engine and the foul-penalty escalation table;
- the round timer and the match clock;
- the tournament bracket: serpentine group seeding, round robin, standings, and the knockout
  tree from the round of 16 to the final;
- the instant-replay ring buffer and the replay engine's playback index, speed and marks;
- age categories and player creation.

There is one Dafny module per source file:

| Module | Source | Form |
|---|---|---|
| `Scoring` | `engine/scoring.py` | class |
| `PlayerQueues` | `engine/player_queue.py` | class |
| `Rules` | `engine/rules.py` | class |
| `Fouls` | `models/foul.py` | functions |
| `Players` | `models/player.py` | functions |
| `Timers` | `engine/timer.py` | classes |
| `Tournaments` | `engine/tournament_bracket.py` | class |
| `RingBuffers` | `camera/ring_buffer.py` | class |
| `Replay` | `camera/replay_engine.py` | class |

Two helper modules support them. `Common` holds `Option`, `Min`/`Max` and counting. `Sorting`
is a stable insertion sort that stands for Python's `sorted`.

The classes look like the source objects: they have the same fields, and their methods change
them in place (`modifies this`). Each method's postcondition ties the new state either to a
step function on a value view of the object, or to a function on the old fields. The lemmas
beside each class prove what the source promises about those step functions.

Errors are modelled as in the source. A refused operation returns `false`, `None` or (for a
Python exception) a failed `ok` flag, and the state is left unchanged.

Qt signals become ghost event logs wherever the order or the once-only firing of signals
matters:

- round started, round ended and match completed for the scoring engine;
- ticks, warning thresholds, pause-rule violations and expiry for the round timer.

Readings of the Qt elapsed-timer clock become an explicit `now` argument.

Some properties proved about the source's own behaviour:

- **Scoring.** AP (the score) stays equal to Opa wins plus Oshi wins (the two kinds of bout win)
  under every operation except fouls and eliminations. An undo reverses exactly the bout just
  recorded. Because `start_round` keeps the undo stack, an undo at the start of a round takes
  the round counters below zero. An undo after a foul can make AP negative.
- **Elimination bonus.** The engine's bonus schedule is not the rules engine's schedule: with
  three players left the engine gives 3 and the rules give 5.
- **Player queue.** M advances of M live players give back the same queue. Elimination keeps
  the live players in their box order.
- **Foul table.** Severity is not monotone: re-entry escalates from round loss to AP deduction
  to disqualification.
- **Round timer.** Warnings fire at most once each. Stopping a paused timer counts the paused
  interval as elapsed time.
- **Tournament.** Serpentine seeding places every team exactly once. A group of T teams plays
  T(T-1)/2 matches. The knockout is a tree in which two matches never feed the same slot.
  Recording a group result twice counts it twice. A winner id that is absent from the match
  gives both teams a loss. The advance to the knockout seats every round-of-16 pairing twice,
  with sides swapped. Recording the final completes the tournament whatever happened in the
  earlier stages.
- **Replay.** A range whose end is negative counts from the back. The last 0 seconds is the
  whole buffer. A tick on an empty buffer parks the index at -1. Looping playback is periodic
  in the buffer size.

The model follows the code. Two points need a word:

- The queue's own documentation says that box 1 is the Red Zone, where the active player
  stands (engine/player_queue.py:34 and :43). When one player is left, `advance_queue`
  nevertheless leaves that player in box 1 marked inactive. The model uses the corrected
  behaviour and records the as-written one under Findings.
- `_compact_queue` is modelled as "every box above the vacated box moves down by one". It
  agrees with the code's "sort by box and renumber" whenever the queue invariant holds, and
  the invariant is proved to hold.

## Model

| member | source | states |
|---|---|---|
| Rules.ResultOf | engine/rules.py:74-82 | the result carries the penalty's action and deduction, each loss or disqualification flag is set exactly for its own action, and at most one flag is set |
| Rules.SumCountsIncrement | engine/rules.py:63-69 | raising one foul type's count by one raises the player's total by one |
| Rules.SumCountsEmpty | engine/rules.py:48-50 | a player with no recorded fouls totals zero |
| Rules.BumpEffect | engine/rules.py:63-69 | recording a foul raises exactly one (player, foul type) count by one, and with it that player's total, leaving every other count unchanged |
| Rules.RulesEngine.constructor | engine/rules.py:44-46 | a new engine has recorded no fouls |
| Rules.RulesEngine.Reset | engine/rules.py:48-50 | after a reset every foul count is zero |
| Rules.RulesEngine.GetPenaltyFor | engine/rules.py:86-96 | the penalty for an occurrence is the table's entry for the last key not above it, or a warning when there is none |
| Rules.RulesEngine.ProcessFoul | engine/rules.py:52-84 | exactly one (player, foul type) count goes up by one, and the penalty returned is the table's entry for the new occurrence number |
| Rules.ValidateRoundCount | engine/rules.py:123-128 | team mode accepts only 15 rounds; 1v1 mode accepts exactly 5, 10 or 15 |
| Rules.TeamRoundsAreValid1v1Rounds | engine/rules.py:123-128 | every round count valid in team mode is valid in 1v1 mode, and 1v1 mode admits exactly two more counts |
| Rules.ValidateTeamSize | engine/rules.py:130-137 | a team size is valid exactly for 1..15 players |
| Rules.CanSubstitute | engine/rules.py:139-141 | another substitution is allowed exactly while fewer than five have been made |
| Rules.DetermineRoundWinner | engine/rules.py:143-155 | strictly more AP wins the round; equal AP is a tie |
| Rules.RoundWinnerAntisymmetric | engine/rules.py:143-155 | swapping the players swaps the round winner |
| Rules.DetermineMatchWinner | engine/rules.py:157-177 | the match goes to more AP, then to more rounds won; it is undecided only when both are level |
| Rules.MatchWinnerAntisymmetric | engine/rules.py:157-177 | swapping the players swaps the match winner |
| Rules.MatchWinnerExtendsRoundWinner | engine/rules.py:157-177 | rounds won decide only on equal AP; otherwise the match goes the way the AP goes |
| Rules.CalculateEliminationBonus | engine/rules.py:181-203 | the bonus by the losing team's remaining players: 3 above three, 5, 10, 15 and 15 for three, two, one and none, and 3 for negative counts |
| Rules.EliminationBonusGrowsAsTeamShrinks | engine/rules.py:181-203 | the bonus never decreases as the team shrinks from 15 players towards one |
| Rules.IsTeamEliminated | engine/rules.py:205-208 | a team is eliminated exactly when its roster size is zero or less |
| Fouls.FoulPenalties | models/foul.py:43-80 | the escalation table per foul type, with keys in ascending order |
| Fouls.Lookup | models/foul.py:130 | the stored penalty is found exactly when its key is present |
| Fouls.LastKeyAtMost | models/foul.py:124-128 | the largest key not above the occurrence: it is a key, it is at most the occurrence, and no key in between exists |
| Fouls.FindPenalty | models/foul.py:122-130 | the escalation loop returns the penalty of the largest key not above the occurrence, or a warning with no deduction when no key is low enough |
| Fouls.GetPenalty | models/foul.py:114-130 | a foul record's penalty is the escalation lookup for its foul type and occurrence |
| Fouls.TableKeysContiguous | models/foul.py:43-80 | every foul type's table is keyed by exactly 1..k for some k between 1 and 3 |
| Fouls.DeductionOnlyOnApRows | models/foul.py:43-80 | AP is deducted only on AP-deduction rows: 1 for delay of game, 3 for every other foul type |
| Fouls.FirstRowForLowOccurrences | models/foul.py:124-130 | an occurrence at or below 1, zero and negatives included, gets the first row |
| Fouls.ConstantBeyondLastKey | models/foul.py:124-130 | past its last key a table repeats its last row for every later occurrence |
| Fouls.LastRowBeyondLastKey | models/foul.py:124-130 | in any ascending table, an occurrence at or past the last key gets the last row |
| Fouls.RowAtItsOwnOccurrence | models/foul.py:124-130 | occurrence k inside a table gets row k exactly |
| Fouls.EmptyTableYieldsWarning | models/foul.py:122-130 | a foul type with no table always gives a warning with no deduction |
| Fouls.ReentryEscalation | models/foul.py:64-68 | re-entry after elimination goes round loss, then AP deduction, then disqualification, so severity is not monotone |
| Players.FromAge | models/player.py:27-43 | each age goes to the first bracket whose range holds it, and everything else goes to the old-adult category |
| Players.FromAgeExact | models/player.py:29-41 | the brackets are disjoint, and each category is produced exactly by the ages of its own range |
| Players.BracketsContiguous | models/player.py:29-41 | the closed brackets tile ages 6..59 without a gap |
| Players.FromAgeMonotone | models/player.py:17-43 | from age 6 on, an older player never gets an earlier category |
| Players.Create | models/player.py:71-80 | a new player's category is derived from their age, and every other field is copied from the arguments |
| Sorting.SortByCorrect | engine/tournament_bracket.py:427-431 | the sort result is a permutation of its input and ordered by the given key; it is stable, because for every k the elements tied with k come out in the order they went in, as with Python's sorted |
| Scoring.Compare | engine/scoring.py:337-342 | player 1 wins exactly on strictly more AP, player 2 likewise, and equal AP is a tie |
| Scoring.CompareAntisymmetric | engine/scoring.py:337-342 | swapping the players mirrors the outcome |
| Scoring.CompareAgreesWithRules | engine/scoring.py:337-342 | the engine's comparison agrees with the rules engine's round winner in all three cases |
| Scoring.CreditInverse | engine/scoring.py:246-311 | the counter change of an undo reverses that of a record, and the other way round |
| Scoring.ReplayCounts | engine/scoring.py:246-264 | over a bout history, a player's Opa plus Oshi wins equals the number of bouts credited to them |
| Scoring.FirstIndex | engine/scoring.py:470 | the position of an id that is present: it holds the id, and no earlier position does |
| Scoring.RemoveFirst | engine/scoring.py:469-470 | for an id the caller has checked is present, list.remove takes out exactly its first occurrence, keeps everything else in order, and removes one copy from the multiset |
| Scoring.RemoveFirstAtFirstOccurrence | engine/scoring.py:469-470 | some position holds the id, no earlier one does, and the result is the list with that position cut out |
| Scoring.EngineBonusIsRulesBonusShifted | engine/scoring.py:479-484 | the engine's bonus for the players left equals the rules engine's bonus for one player more |
| Scoring.EngineBonusDiffersFromRules | engine/scoring.py:479-484 | the two schedules disagree: three players left earns 3 in the engine and 5 in the rules |
| Scoring.EngineBonusSchedule | engine/scoring.py:479-484 | the engine pays 3 while at least three players are left, then 5, 10 and 15 for two, one and none |
| Scoring.SetupEstablishesInv | engine/scoring.py:169-186 | a new engine and every set-up engine satisfy the bookkeeping invariant, with AP equal to Opa plus Oshi wins |
| Scoring.RecordBoutEffect | engine/scoring.py:229-264 | outside an active round record_bout is refused; otherwise one bout, one Opa or Oshi win and one AP (total and round) go to the winner's side, and one record is pushed |
| Scoring.RecordBoutPreservesInv | engine/scoring.py:229-264 | recording a bout keeps the bookkeeping invariant |
| Scoring.UndoPreservesInv | engine/scoring.py:278-324 | an undo keeps the bookkeeping invariant |
| Scoring.UndoUndoesRecord | engine/scoring.py:278-324 | recording a bout and then undoing it restores every counter and the undo stack, and returns the pushed record |
| Scoring.UndoRefusal | engine/scoring.py:284-291 | an undo returns nothing and changes nothing exactly when the stack is empty or no round is active |
| Scoring.UndoAcrossRoundBoundary | engine/scoring.py:196-213 | since starting a round keeps the undo stack, an undo at the start of a round pops the previous round's bout and takes this round's counters below zero |
| Scoring.UndoAfterFoulGoesNegative | engine/scoring.py:355-377 | a foul never makes AP negative, but an undo after a foul can |
| Scoring.StartEffect | engine/scoring.py:188-213 | the match starts only from setup; a round starts only from an active match or a completed round, one round further on, with zeroed round counters and a full timer, and the totals and undo stack are kept |
| Scoring.EndRoundEffect | engine/scoring.py:326-353 | a round ends only while active; it goes to strictly more round AP or is a tie, the result is appended, and the match completes exactly when the last round has been reached |
| Scoring.OtherOperationsPreserveInv | engine/scoring.py:188-390 | starting, ending, fouls, pause and resume keep the bookkeeping invariant |
| Scoring.EliminatePreservesInv | engine/scoring.py:456-496 | an elimination keeps the bookkeeping invariant |
| Scoring.FoulEffect | engine/scoring.py:355-377 | a foul lowers at most the matching player's total AP, to max(0, ap - d); a deduction of zero or less, or an unknown id, changes nothing; AP that was non-negative stays non-negative |
| Scoring.PauseResume | engine/scoring.py:379-390 | pause acts only in an active round and resume only when paused, and pausing then resuming returns to the active round |
| Scoring.EliminateEffect | engine/scoring.py:456-496 | the first occurrence of the id leaves the named side's roster and is listed as eliminated; the bonus for the players left goes to the other side's total and to nothing else |
| Scoring.GuardsAgree | engine/scoring.py:527-538 | can_record_bout holds exactly when record_bout would succeed; start_round is allowed past the last round while can_start_round is not |
| Scoring.AwardBout | engine/scoring.py:246-264 | a recorded bout adds one bout, and one Opa or Oshi win and one AP (total and round) to the winner |
| Scoring.ReverseBout | engine/scoring.py:293-313 | an undone bout takes back exactly what recording it gave |
| Scoring.ScoringEngine.ResetFields | engine/scoring.py:116-156 | every group of fields goes back to its default, and the state is left alone |
| Scoring.ScoringEngine.constructor | engine/scoring.py:102-114 | a new engine is in its initial state, with the invariant and no events |
| Scoring.ScoringEngine.Setup1v1Match | engine/scoring.py:169-186 | setup resets the counters, names the players and keeps the invariant with AP conserved |
| Scoring.ScoringEngine.StartMatch | engine/scoring.py:188-194 | succeeds exactly from setup, and otherwise changes nothing |
| Scoring.ScoringEngine.StartRound | engine/scoring.py:196-213 | succeeds exactly from an active match or a completed round and logs one round-started event; otherwise changes nothing |
| Scoring.ScoringEngine.RecordBout | engine/scoring.py:215-276 | succeeds exactly in an active round, keeps the invariant and AP conservation, and otherwise changes nothing |
| Scoring.ScoringEngine.PushBout | engine/scoring.py:232-244 | the record is pushed onto the undo stack together with the new counters |
| Scoring.ScoringEngine.UndoLastBout | engine/scoring.py:278-324 | pops and reverses the last bout, or is refused without change, and keeps the invariant and AP conservation |
| Scoring.ScoringEngine.CompleteMatch | engine/scoring.py:397-419 | the match becomes completed, and the winner by total AP is logged |
| Scoring.ScoringEngine.EndRound | engine/scoring.py:326-353 | returns the round outcome exactly in an active round and logs round-ended (and match-completed on the last round); otherwise changes nothing |
| Scoring.ScoringEngine.ApplyFoulPenalty | engine/scoring.py:355-377 | applies the clamped deduction as FoulEffect describes, and keeps the invariant |
| Scoring.ScoringEngine.Pause | engine/scoring.py:379-384 | pauses only an active round, saving the state it left |
| Scoring.ScoringEngine.Resume | engine/scoring.py:386-390 | resumes only a paused round, into the saved state |
| Scoring.ScoringEngine.UpdateTimer | engine/scoring.py:392-395 | the round time remaining takes the timer's value, nothing else in the engine changes, no event is emitted, and the engine invariant is kept |
| Scoring.ScoringEngine.SetupTeamMatch | engine/scoring.py:448-454 | sets up team rosters with no one eliminated, and keeps the invariant |
| Scoring.ScoringEngine.EliminatePlayer | engine/scoring.py:456-496 | performs the elimination that EliminateEffect describes, and returns the bonus |
| Scoring.ScoringEngine.IsMatchComplete | engine/scoring.py:522-525 | true exactly in the completed state |
| Scoring.ScoringEngine.CanStartRound | engine/scoring.py:527-533 | true exactly in an active match or a completed round before the last round, and then start_round succeeds |
| Scoring.ScoringEngine.CanRecordBout | engine/scoring.py:535-538 | true exactly when record_bout would succeed |
| PlayerQueues.LaneForBox | engine/player_queue.py:91-104 | box 0 or less is the exit lane, exactly; boxes 1-3 are lane 1, 4-6 lane 2, 7-9 lane 3, 10-12 lane 4, and box 13 and above lane 5 |
| PlayerQueues.LiveCount | engine/player_queue.py:114-117 | the count of players not eliminated, never more than the roster |
| PlayerQueues.ExactlyOneActive | engine/player_queue.py:106-112 | under the queue invariant at most one player is active, and only in box 1 |
| PlayerQueues.SomeoneActive | engine/player_queue.py:106-112 | while any player remains, someone is active in box 1 |
| PlayerQueues.LiveCountEliminate | engine/player_queue.py:163-169 | eliminating one live player lowers the live count by one |
| PlayerQueues.SetupEstablishesInvariant | engine/player_queue.py:74-89 | a freshly set-up roster satisfies the queue invariant, with every player live |
| PlayerQueues.FirstActive | engine/player_queue.py:106-112 | the index of the first active, non-eliminated player, if there is one |
| PlayerQueues.AdvanceAsWrittenDeactivatesLonePlayer | engine/player_queue.py:139-151 | with one player left, the code as written marks that player inactive, which breaks the invariant |
| PlayerQueues.Advanced | engine/player_queue.py:139-151 | the corrected advance: the same length, identities and elimination flags |
| PlayerQueues.AdvanceFixOnlyTouchesLonePlayer | engine/player_queue.py:139-151 | the as-written and corrected advances differ only in the lone player's active flag |
| PlayerQueues.AdvancedPointwise | engine/player_queue.py:139-151 | player by player: box 1 goes to the back, every other live box moves down by one, and the active flag follows box 1 |
| PlayerQueues.AdvancePreservesInvariant | engine/player_queue.py:124-151 | the corrected advance keeps the queue invariant and moves every live player one box |
| PlayerQueues.RotatedBoxFullCycle | engine/player_queue.py:139-151 | m advances bring each box of 1..m back to itself |
| PlayerQueues.AdvancedTimesTracksBoxes | engine/player_queue.py:139-151 | after k advances each live player's box is its box rotated k times |
| PlayerQueues.RotationCycle | engine/player_queue.py:139-151 | with no elimination or substitution in between, M advances of M live players give back the very same queue |
| PlayerQueues.Compacted | engine/player_queue.py:177-188 | compaction keeps length, identities and flags, and moves down by one each box above the vacated one |
| PlayerQueues.EliminatedAt | engine/player_queue.py:153-188 | the eliminated player is retired (box 0, exit lane, inactive), and everyone else keeps their entry before compaction |
| PlayerQueues.CompactedLiveCount | engine/player_queue.py:177-188 | compaction does not change the live count |
| PlayerQueues.RetireFacts | engine/player_queue.py:163-169 | right after the retirement, the others' boxes are still distinct, lie in 1..M and avoid the vacated box |
| PlayerQueues.EliminationPreservesInvariant | engine/player_queue.py:153-188 | eliminating a live player keeps the invariant, with one live player fewer |
| PlayerQueues.EliminationKeepsOrder | engine/player_queue.py:177-188 | elimination keeps every identity and every other flag, and the survivors keep their prior box order |
| PlayerQueues.FirstLiveWithId | engine/player_queue.py:163-164 | the index of the first non-eliminated player with the id, which elimination and substitution act on |
| PlayerQueues.SamePlacementKeepsInvariant | engine/player_queue.py:220-223 | the invariant depends only on placement, so a queue placed alike satisfies it too |
| PlayerQueues.SubstitutionPreservesInvariant | engine/player_queue.py:220-223 | replacing a live player's identity in place keeps the invariant |
| PlayerQueues.LivePlayers | engine/player_queue.py:241 | the live players in list order, none of them eliminated |
| PlayerQueues.LivePlayersBoxesDistinct | engine/player_queue.py:241-242 | under the invariant the live players have pairwise different boxes |
| PlayerQueues.LivePlayersBoxesInRange | engine/player_queue.py:241-242 | under the invariant every live player's box lies in 1..M |
| PlayerQueues.QueueStateIsBoxOrder | engine/player_queue.py:234-253 | under the invariant the queue state lists boxes 1..M in order, only the first is active, and it holds exactly the live players |
| PlayerQueues.AdvanceEach | engine/player_queue.py:139-151 | the loop of advance_queue computes the corrected advance |
| PlayerQueues.CompactQueue | engine/player_queue.py:177-188 | the compaction loop computes Compacted for the vacated box |
| PlayerQueues.FindLive | engine/player_queue.py:163-164 | the search loop finds the first live player with the id, or reports that there is none |
| PlayerQueues.PlayerQueue.constructor | engine/player_queue.py:55-59 | an empty queue with no substitutions made |
| PlayerQueues.PlayerQueue.SetupRoster | engine/player_queue.py:64-89 | refuses more than 15 entries without change; otherwise boxes 1..n in roster order, only box 1 active, no one eliminated |
| PlayerQueues.PlayerQueue.ActivePlayer | engine/player_queue.py:106-112 | the first active, non-eliminated player; under the invariant it is the player in box 1 |
| PlayerQueues.PlayerQueue.ActiveCount | engine/player_queue.py:114-117 | the number of live players |
| PlayerQueues.PlayerQueue.AdvanceQueue | engine/player_queue.py:124-151 | every live player moves one box towards box 1 and the box-1 player goes to the back, keeping the invariant; with no players nothing happens |
| PlayerQueues.PlayerQueue.EliminatePlayer | engine/player_queue.py:153-175 | retires the first live player with the id, logs the id and compacts the rest; with no such player it returns nothing and changes nothing |
| PlayerQueues.PlayerQueue.SubstitutePlayer | engine/player_queue.py:190-225 | refused after five substitutions, for an unknown id or for the player in box 1; otherwise the identity is replaced in place, the box is kept and the count goes up |
| PlayerQueues.PlayerQueue.GetPlayerAtBox | engine/player_queue.py:227-232 | the live player in that box; under the invariant there is one exactly for boxes 1..M |
| PlayerQueues.PlayerQueue.GetQueueState | engine/player_queue.py:234-253 | the live players sorted by box, as a permutation of the live players |
| PlayerQueues.PlayerQueue.CanSubstitute | engine/player_queue.py:266-268 | true exactly while fewer than five substitutions were made |
| PlayerQueues.PlayerQueue.RemainingSubstitutions | engine/player_queue.py:270-272 | five minus the substitutions made, which lies in 0..5 under the invariant |
| Timers.InitialDuration | engine/timer.py:52 | a missing or zero duration means the default round length |
| Timers.LiveRemaining | engine/timer.py:84-90 | the duration less the time used, never below zero |
| Timers.LiveRemainingMonotone | engine/timer.py:84-90 | the live countdown never goes up as time passes |
| Timers.ResumeIsContinuous | engine/timer.py:132-139 | after a resume the countdown continues from exactly the frozen time |
| Timers.NewWarningsSpec | engine/timer.py:178-182 | a threshold fires exactly when it is listed, due and not yet sent, and each fires at most once |
| Timers.DueAmong | engine/timer.py:178-182 | the thresholds due at a number of whole seconds remaining |
| Timers.DueThresholds | engine/timer.py:178-182 | which of the 30, 10 and 5 second warnings are due at a number of seconds remaining |
| Timers.DueThresholdsNested | engine/timer.py:178-182 | the later the tick, the more thresholds are due: 30 s first, then 10 s, then 5 s |
| Timers.FireWarnings | engine/timer.py:177-182 | the threshold loop adds every due, unsent threshold to the sent set and fires it, in the listed order |
| Timers.WarningEvents | engine/timer.py:179-182 | one warning event per threshold, in order |
| Timers.FiredStaysDistinct | engine/timer.py:179-182 | firing only unsent thresholds, each once, keeps the fired list free of repeats |
| Timers.StopWhilePausedCountsThePause | engine/timer.py:102-139 | through start, pause and stop on a new timer: the pause freezes the remaining time, yet stop stores the frozen time less the whole paused interval (10 s into a 60 s round and stopped 20 s after pausing, 30 s instead of 50 s) |
| Timers.RoundTimer.IsRunning | engine/timer.py:74-77 | running and not paused |
| Timers.RoundTimer.RemainingAt | engine/timer.py:84-90 | the live countdown while running, and the stored value otherwise |
| Timers.RoundTimer.ElapsedAt | engine/timer.py:97-100 | the duration less the remaining time |
| Timers.RoundTimer.CalcRemaining | engine/timer.py:162-167 | reads the clock whenever it was ever started, even while paused |
| Timers.RoundTimer.constructor | engine/timer.py:43-72 | a stopped timer holding the full duration, with nothing fired |
| Timers.RoundTimer.Rearm | engine/timer.py:104-108 | the full duration is stored, and the pause rule and every warning are re-armed |
| Timers.RoundTimer.Start | engine/timer.py:102-116 | a full countdown from now, every warning re-armed, and the first tick emitted |
| Timers.RoundTimer.Stop | engine/timer.py:118-123 | not running, not paused, and holding the remaining time the clock gives |
| Timers.RoundTimer.Pause | engine/timer.py:125-130 | acts only when running and not paused, and freezes the remaining time it showed |
| Timers.RoundTimer.Resume | engine/timer.py:132-139 | acts only when paused, and restarts the countdown from the frozen time |
| Timers.RoundTimer.Reset | engine/timer.py:141-150 | stops, optionally takes a new duration (zero included), stores the full time and re-arms the warnings |
| Timers.RoundTimer.NotifyBoutActivity | engine/timer.py:152-160 | the pause rule restarts from the current elapsed time |
| Timers.RoundTimer.OnTick | engine/timer.py:169-194 | stores the clock's remaining time, then fires the due warnings, the pause rule and the expiry, in that order and each at most once |
| Timers.RoundTimer.CheckPauseRule | engine/timer.py:184-188 | fires once when no bout activity has happened for the pause limit |
| Timers.RoundTimer.Expire | engine/timer.py:190-194 | the ticker and the countdown stop, and round-expired fires once |
| Timers.RoundTimer.AddTime | engine/timer.py:196-204 | the stored time grows, capped at twice the duration, and a running countdown gains too |
| Timers.RoundTimer.SubtractTime | engine/timer.py:206-212 | the stored time shrinks, floored at zero, and reaching zero while running expires the round |
| Timers.MatchClock.ElapsedAt | engine/timer.py:233-241 | the clock reading less all paused time, the current pause included |
| Timers.MatchClock.constructor | engine/timer.py:223-231 | a clock that was never started |
| Timers.MatchClock.Start | engine/timer.py:243-248 | the clock restarts at now with nothing paused |
| Timers.MatchClock.Stop | engine/timer.py:250-252 | only the ticker stops, and the clock itself keeps counting |
| Timers.MatchClock.Pause | engine/timer.py:254-258 | a second pause does nothing, and the elapsed time is frozen at its value at now |
| Timers.MatchClock.Resume | engine/timer.py:260-264 | a resume while not paused does nothing; otherwise the paused interval joins the total and the elapsed time carries on from where it was frozen |
| RingBuffers.SliceBound | camera/ring_buffer.py:82 | Python's slice-bound normalisation: a negative bound counts from the end, and the result is clamped into the sequence |
| RingBuffers.PySlice | camera/ring_buffer.py:126 | `s[a:b]` in Python: the normalised range, or empty when it is reversed |
| RingBuffers.PySliceFrom | camera/ring_buffer.py:82 | `s[k:]` in Python, from the normalised bound |
| RingBuffers.DequeAppendSpec | camera/ring_buffer.py:54 | an append to a bounded deque never exceeds the bound, ends in the new element and drops only the oldest |
| RingBuffers.NumberAt | camera/ring_buffer.py:64-69 | position k holds frame number counter - size + 1 + k |
| RingBuffers.PushKeepsNumbering | camera/ring_buffer.py:64-69 | pushing keeps the frame numbers contiguous, ending in the counter |
| RingBuffers.RangeWithNegativeEndCountsFromBack | camera/ring_buffer.py:113-126 | on any buffer, get_frames_in_range(0, e) with e <= -2 drops the newest -(e + 1) frames, and e = -1 gives no frames at all |
| RingBuffers.ZeroSecondsIsWholeBuffer | camera/ring_buffer.py:71-82 | asking for the last 0 seconds returns the whole buffer |
| RingBuffers.ReplayBuffer.constructor | camera/ring_buffer.py:44-55 | an empty buffer of max_seconds * fps frames whose counter is 0 |
| RingBuffers.ReplayBuffer.Push | camera/ring_buffer.py:57-69 | the counter goes up by one and stamps the new newest frame, and a full buffer drops its oldest frame |
| RingBuffers.ReplayBuffer.GetLastNSeconds | camera/ring_buffer.py:71-82 | the newest min(seconds * fps, size) frames; a count of zero gives the whole buffer and a negative one drops from the front |
| RingBuffers.ReplayBuffer.GetFrameAt | camera/ring_buffer.py:84-96 | the frame at an index exactly when the index is in range |
| RingBuffers.ReplayBuffer.GetFrameByNumber | camera/ring_buffer.py:98-111 | a frame is found exactly when its number is among the last size numbers stamped, and it is the frame at its position |
| RingBuffers.ReplayBuffer.GetFramesInRange | camera/ring_buffer.py:113-126 | the frames from start to end inclusive, clamped into the buffer with Python's slice rules |
| RingBuffers.ReplayBuffer.Clear | camera/ring_buffer.py:128-131 | empty, and the next push is numbered 1 |
| RingBuffers.ReplayBuffer.Size | camera/ring_buffer.py:133-136 | the number of frames held |
| RingBuffers.ReplayBuffer.IsFull | camera/ring_buffer.py:143-146 | true exactly when the size has reached max_frames |
| RingBuffers.ReplayBuffer.OldestFrame | camera/ring_buffer.py:148-153 | the first frame, exactly when there is one |
| RingBuffers.ReplayBuffer.NewestFrame | camera/ring_buffer.py:155-160 | the last frame, exactly when there is one |
| Replay.ClampSpeed | camera/replay_engine.py:125 | the speed is clamped into 0.125..2.0 (in thousandths) |
| Replay.SpeedIndex | camera/replay_engine.py:180-183 | the current speed's position in SPEEDS, or the position of 1.0 when it is not listed |
| Replay.CycledSpeed | camera/replay_engine.py:185-187 | the position moves by direction, clamped to the list |
| Replay.SpeedsIncreasing | camera/replay_engine.py:52 | SPEEDS is strictly increasing |
| Replay.CycleUpThenDown | camera/replay_engine.py:170-187 | from a listed speed, one step up and one step down return to it, and likewise the other way, away from the list's ends |
| Replay.CycleUpIsFaster | camera/replay_engine.py:170-187 | cycling up never slows playback down |
| Replay.SeekTarget | camera/replay_engine.py:196 | the index is clamped to 0..size - 1 |
| Replay.SeekIdempotent | camera/replay_engine.py:189-197 | seeking to where a seek landed stays put |
| Replay.StepForwardThenBack | camera/replay_engine.py:223-245 | stepping forward by k and back by k returns to the start when the step stays inside the buffer |
| Replay.TickIndex | camera/replay_engine.py:387-404 | the index after one tick: one frame on, wrapping to 0 when looping, and staying on the last frame otherwise |
| Replay.TickPauses | camera/replay_engine.py:387-404 | a tick pauses playback exactly when it runs past the end without looping |
| Replay.TickStaysInBuffer | camera/replay_engine.py:387-404 | a tick from any index the engine can hold lands inside a non-empty buffer |
| Replay.LoopingNeverPauses | camera/replay_engine.py:387-404 | a looping playback never pauses by itself |
| Replay.EmptyBufferParksBeforeStart | camera/replay_engine.py:387-404 | on an empty buffer a tick without looping parks the index at -1 |
| Replay.LoopTicks | camera/replay_engine.py:387-404 | the index after k ticks of a looping playback |
| Replay.LoopTicksAdd | camera/replay_engine.py:387-404 | a + b ticks are a ticks followed by b ticks |
| Replay.LoopTicksAdvance | camera/replay_engine.py:387-404 | inside the buffer each tick moves one frame on |
| Replay.LoopingPlaybackIsPeriodic | camera/replay_engine.py:387-404 | after as many ticks as the buffer holds frames, a looping playback is back where it started |
| Replay.ExportSpan | camera/replay_engine.py:302-306 | the clip needs both marks and runs from the smaller to the larger |
| Replay.ReplayEngine.TotalFrames | camera/replay_engine.py:88-91 | the buffer's size |
| Replay.ReplayEngine.constructor | camera/replay_engine.py:54-76 | stopped at index 0, normal speed, no marks and no looping |
| Replay.ReplayEngine.Play | camera/replay_engine.py:118-135 | the speed is clamped, the state becomes playing and the timer runs |
| Replay.ReplayEngine.Pause | camera/replay_engine.py:137-141 | the timer stops and the state becomes paused |
| Replay.ReplayEngine.Stop | camera/replay_engine.py:143-149 | the timer stops, the state becomes stopped and the index goes back to 0 |
| Replay.ReplayEngine.TogglePlayPause | camera/replay_engine.py:151-156 | playing goes to paused, and every other state plays at the current speed |
| Replay.ReplayEngine.SetSpeed | camera/replay_engine.py:158-168 | the speed is clamped, and playback restarts only if it was playing |
| Replay.ReplayEngine.CycleSpeed | camera/replay_engine.py:170-187 | moves along SPEEDS by direction and returns the new speed |
| Replay.ReplayEngine.SeekToIndex | camera/replay_engine.py:189-197 | moves to the index, clamped into the buffer |
| Replay.ReplayEngine.SeekToEnd | camera/replay_engine.py:219-221 | moves to the newest frame, or to index 0 on an empty buffer |
| Replay.ReplayEngine.StepForward | camera/replay_engine.py:223-233 | enters frame-step, stops the timer and seeks that many frames ahead |
| Replay.ReplayEngine.StepBackward | camera/replay_engine.py:235-245 | enters frame-step, stops the timer and seeks that many frames back |
| Replay.ReplayEngine.SetMarkIn | camera/replay_engine.py:247-255 | the mark-in point becomes the current index, which is returned |
| Replay.ReplayEngine.SetMarkOut | camera/replay_engine.py:257-265 | the mark-out point becomes the current index, which is returned |
| Replay.ReplayEngine.ClearMarks | camera/replay_engine.py:267-270 | both marks are unset |
| Replay.ReplayEngine.SetLoop | camera/replay_engine.py:383-385 | only the loop flag changes |
| Replay.ReplayEngine.OnPlaybackTick | camera/replay_engine.py:387-404 | outside playing nothing happens; otherwise the index moves as TickIndex says, and playback pauses exactly when TickPauses says |
| Replay.ReplayEngine.MarkedSpan | camera/replay_engine.py:302-306 | the span from the smaller mark to the larger, or nothing while a mark is missing |
| Replay.ReplayEngine.ClipFrames | camera/replay_engine.py:302-311 | nothing without both marks or when the range holds no frame; otherwise the frames from the smaller mark to the larger, inclusive |
| Tournaments.StageIndex | engine/tournament_bracket.py:102-109 | a stage's position in the stage order |
| Tournaments.NextStage | engine/tournament_bracket.py:561-564 | the stage one position later, which every stage but completed has |
| Tournaments.TeamNamesSpec | engine/tournament_bracket.py:148 | every listed id has a name, nothing else has one, and the name is that of the last team listed with the id |
| Tournaments.TeamNamesOnlyListed | engine/tournament_bracket.py:148 | only listed ids get names |
| Tournaments.SerpentineColumn | engine/tournament_bracket.py:186-194 | the group visited at each step of a row: left to right on even rows, right to left on odd ones |
| Tournaments.SerpentineInvolution | engine/tournament_bracket.py:186-194 | each row visits every group exactly once |
| Tournaments.SerpentineGroup | engine/tournament_bracket.py:186-205 | team k is seeded into row k div G, at column k mod G of that row's direction |
| Tournaments.RowOf | engine/tournament_bracket.py:180-205 | team k of G * rows teams lies in row k div G, below rows, at column k mod G |
| Tournaments.SeededTeams | engine/tournament_bracket.py:180-205 | the teams of a group after some rows of seeding, one per row |
| Tournaments.SeededTeamsAt | engine/tournament_bracket.py:180-205 | row r of group g holds the team at index r * G plus that group's column in row r |
| Tournaments.SerpentinePlacement | engine/tournament_bracket.py:180-205 | every team is seeded into exactly one seat of one group, and every group gets one team per row |
| Tournaments.SixteenTeamSeeding | engine/tournament_bracket.py:174-178 | with 16 teams in 4 groups, group A gets the 1st, 8th, 9th and 16th team |
| Tournaments.PlaceTeam | engine/tournament_bracket.py:194-205 | the group visited next gains that team's id and a fresh standing |
| Tournaments.SeedRow | engine/tournament_bracket.py:186-205 | one row of seeding gives the row's teams to the groups in that row's direction |
| Tournaments.SeedGroups | engine/tournament_bracket.py:162-205 | the seeding loops give each group exactly its serpentine teams with fresh standings |
| Tournaments.IdsOf | engine/tournament_bracket.py:197-204 | the ids of a list of teams, in order |
| Tournaments.NewStandings | engine/tournament_bracket.py:197-204 | fresh standings for a list of teams, in order |
| Tournaments.RowFixtures | engine/tournament_bracket.py:214-215 | team i meets every team listed after it |
| Tournaments.FixturesCount | engine/tournament_bracket.py:212-216 | the first rows of fixtures hold the sum of their pairings |
| Tournaments.RoundRobinCount | engine/tournament_bracket.py:212-216 | a group of T teams plays T(T-1)/2 matches |
| Tournaments.FixturesMembers | engine/tournament_bracket.py:212-216 | a fixture pairs a team with one listed after it |
| Tournaments.RoundRobinMembers | engine/tournament_bracket.py:212-216 | a pairing is played exactly when its home team is listed before its away team |
| Tournaments.FixtureMatch | engine/tournament_bracket.py:216-240 | the numbered group match for a pairing, open and with no result |
| Tournaments.MatchesFor | engine/tournament_bracket.py:216-240 | the matches for a list of pairings, numbered on in list order |
| Tournaments.GroupMatchIdsDistinct | engine/tournament_bracket.py:216-217 | the running counter gives every group match its own id |
| Tournaments.SixteenTeamMatchCount | engine/tournament_bracket.py:207-240 | the default tournament of 4 groups of 4 plays 24 group matches |
| Tournaments.AppendRow | engine/tournament_bracket.py:214-240 | the inner loop adds team i's matches against every later team, numbering on |
| Tournaments.AppendGroup | engine/tournament_bracket.py:214-240 | the loop over one group adds every pairing of that group, in order, numbering on from the matches already listed |
| Tournaments.GenerateGroupMatches | engine/tournament_bracket.py:207-240 | each group's round robin in group order, numbered from 1 with one counter across all groups |
| Tournaments.StageAt | engine/tournament_bracket.py:242-351 | the stage of knockout match k |
| Tournaments.StageRange | engine/tournament_bracket.py:242-351 | a knockout stage's matches are exactly its block of indices |
| Tournaments.FedSlot | engine/tournament_bracket.py:249-351 | match i of a stage feeds side i mod 2 + 1 of match i div 2 + 1 of the next stage, and the final feeds nothing |
| Tournaments.StageMatches | engine/tournament_bracket.py:246-327 | one stage's matches in order, open and with empty slots |
| Tournaments.Skeleton | engine/tournament_bracket.py:242-351 | the 15 knockout matches of the bracket |
| Tournaments.AppendStage | engine/tournament_bracket.py:246-327 | one loop of the bracket build appends exactly that stage's matches |
| Tournaments.InitializeKnockoutBracket | engine/tournament_bracket.py:242-351 | the round of 16, quarter-finals and semi-finals in loops, then the final: exactly the skeleton |
| Tournaments.SkeletonShaped | engine/tournament_bracket.py:242-351 | the built bracket has the knockout shape every later lookup relies on |
| Tournaments.FindMatch | engine/tournament_bracket.py:370 | the first match with the id, or nothing when no match has it |
| Tournaments.KnockoutIndex | engine/tournament_bracket.py:513-516 | where a knockout id sits in the skeleton |
| Tournaments.SkeletonIdIndex | engine/tournament_bracket.py:513-516 | the id of skeleton match k leads back to k |
| Tournaments.IndexSkeletonId | engine/tournament_bracket.py:513-516 | an id placed at k is the id of skeleton match k |
| Tournaments.ShapedFind | engine/tournament_bracket.py:513-516 | in a shaped bracket every knockout id is found at its computed place, and nothing else is found |
| Tournaments.SlotIndex | engine/tournament_bracket.py:262-263 | the slot dictionary maps each knockout slot id to that slot's match and side |
| Tournaments.SlotIndexSpec | engine/tournament_bracket.py:536-537 | a slot id is found exactly where a shaped bracket holds it |
| Tournaments.WinnerSide | engine/tournament_bracket.py:382-385 | side 1 wins if it holds the winning team, otherwise side 2 |
| Tournaments.MarkResult | engine/tournament_bracket.py:375-385 | the match becomes complete with the winner, both scores and the winning side marked |
| Tournaments.FillSide | engine/tournament_bracket.py:538-540 | the advancing team's id, name and seed are written into one side of a match |
| Tournaments.SkeletonFeeds | engine/tournament_bracket.py:242-351 | in the skeleton, match k feeds the slot FedSlot names, one stage on |
| Tournaments.FeedsNextStage | engine/tournament_bracket.py:242-351 | each match's next slot lies in the following stage, and the final feeds nothing |
| Tournaments.FeedsIsTree | engine/tournament_bracket.py:242-351 | two matches never feed the same slot, and every slot after the round of 16 is fed |
| Tournaments.WinnerAdvances | engine/tournament_bracket.py:527-540 | the match is marked, the slot it feeds receives the winner's id, name and seed, and nothing else changes |
| Tournaments.FinalOnlyMarks | engine/tournament_bracket.py:535-540 | recording the final only marks it |
| Tournaments.StageAfterCheck | engine/tournament_bracket.py:555-565 | when every match of the stage is complete, the current stage becomes the next one |
| Tournaments.StageCompleteRange | engine/tournament_bracket.py:557-559 | in a shaped bracket a stage is complete exactly when its own block of matches is |
| Tournaments.FinalCompletesTournament | engine/tournament_bracket.py:555-568 | recording the final completes the tournament whatever happened in earlier stages |
| Tournaments.KnockoutResultStep | engine/tournament_bracket.py:513-551 | records the result on match k, fills the slot it feeds and runs the stage check |
| Tournaments.ApplyKnockoutResult | engine/tournament_bracket.py:520-551 | the updates of a knockout result on the match list |
| Tournaments.RecordKeepsBalance | engine/tournament_bracket.py:388-409 | a result keeps every standing's won + drawn + lost equal to its matches played, and keeps its identifying fields |
| Tournaments.ResultIsZeroSum | engine/tournament_bracket.py:388-409 | each of the two teams plays once more, their AP differentials move by opposite amounts, the winner gains three points, and a winner that played in neither slot leaves both teams with a loss |
| Tournaments.BystanderUnchanged | engine/tournament_bracket.py:391-409 | a team that played in neither slot keeps its standing |
| Tournaments.RecordedTwiceCountsTwice | engine/tournament_bracket.py:369-409 | recording a result again counts it again |
| Tournaments.AfterResult | engine/tournament_bracket.py:391-409 | every group's standings after a result |
| Tournaments.AfterResultBalanced | engine/tournament_bracket.py:391-409 | every standing stays balanced after a result |
| Tournaments.UpdateStandings | engine/tournament_bracket.py:391-409 | the loop updates every standing of every group in place, as AfterResult says |
| Tournaments.RankedCorrect | engine/tournament_bracket.py:427-431 | the ranked standings are the group's standings, reordered so each ranks at least every later one, with tied standings kept in their listed order |
| Tournaments.RankedLength | engine/tournament_bracket.py:427-431 | ranking keeps the number of standings |
| Tournaments.CollectQualifiers | engine/tournament_bracket.py:447-464 | the top two of every group in group order |
| Tournaments.QualifierLayout | engine/tournament_bracket.py:450-464 | when each group has at least two teams, qualifier 2g is group g's winner seeded 2g + 1, and qualifier 2g + 1 its runner-up seeded 2g + 2 |
| Tournaments.WinnerRanksFirst | engine/tournament_bracket.py:427-454 | the group winner ranks at least every team of its group |
| Tournaments.Placed | engine/tournament_bracket.py:481-495 | after seating, the first eight knockout matches are the round of 16 |
| Tournaments.PlaceQualifiers | engine/tournament_bracket.py:481-495 | the seating loop fills the round of 16, as Placed says |
| Tournaments.PlacedShape | engine/tournament_bracket.py:481-495 | seating changes only round-of-16 seats and keeps the bracket's shape |
| Tournaments.WinnerMeetsOtherRunnerUp | engine/tournament_bracket.py:470-479 | every round-of-16 match pairs a group winner with the runner-up of another group |
| Tournaments.SeatedTwice | engine/tournament_bracket.py:470-479 | each of the eight qualifiers is seated in exactly two round-of-16 matches |
| Tournaments.RematchSwapsSides | engine/tournament_bracket.py:470-479 | every pairing is played twice, with sides swapped |
| Tournaments.SeatsFilled | engine/tournament_bracket.py:484-495 | with at least eight qualifiers every seat is filled with the qualifier the bracket order names |
| Tournaments.OpenIndicesFrom | engine/tournament_bracket.py:657-665 | the positions from i on that hold an open match: all of them, each once, in increasing order |
| Tournaments.PendingFrom | engine/tournament_bracket.py:657-665 | the open matches from position i on are exactly the matches at the positions OpenIndicesFrom lists, one for one and in the same order |
| Tournaments.Pending | engine/tournament_bracket.py:657-665 | the k-th result is the match at the k-th of the strictly increasing positions that hold an open match (of the given stage, when one is given); every such position is listed |
| Tournaments.SeededBalanced | engine/tournament_bracket.py:199-204 | fresh standings are balanced |
| Tournaments.TournamentBracket.constructor | engine/tournament_bracket.py:111-126 | an empty bracket in the group stage |
| Tournaments.TournamentBracket.InitializeTournament | engine/tournament_bracket.py:128-160 | refuses, without change, unless there are exactly G * T teams; otherwise names, serpentine groups, round-robin matches and the empty knockout skeleton, back in the group stage |
| Tournaments.TournamentBracket.RecordGroupResult | engine/tournament_bracket.py:353-418 | refuses an unknown match id without change; otherwise marks the first group match with the id and applies the result to every standing of every group |
| Tournaments.TournamentBracket.GetGroupStandings | engine/tournament_bracket.py:420-431 | the group's standings ranked best first, or nothing for a group that does not exist |
| Tournaments.TournamentBracket.IsGroupStageComplete | engine/tournament_bracket.py:433-435 | true exactly when every group match is complete, and so true with no group matches |
| Tournaments.TournamentBracket.AdvanceToKnockout | engine/tournament_bracket.py:437-499 | refuses while a group match is open; otherwise seats the top two of every group in the round of 16 by bracket order and moves to that stage |
| Tournaments.TournamentBracket.RecordKnockoutResult | engine/tournament_bracket.py:501-553 | refuses an unknown match id without change; otherwise records the result, advances the winner and advances the stage when its matches are complete |
| Tournaments.TournamentBracket.GetUpcomingMatches | engine/tournament_bracket.py:657-665 | the open group matches in the group stage, and otherwise the open matches of the current stage, in each case in list order |
| Tournaments.TournamentBracket.GetMatchById | engine/tournament_bracket.py:667-679 | the first group match with the id, else the first knockout match with it, and nothing exactly when neither list has it |

## Left out

- Qt signals other than the ones logged (score_updated, state_changed, bout_recorded, bout_undone, foul_applied, player_eliminated, frame_ready, position_changed, playback_state_changed, bracket_updated, stage_changed, tournament_completed, MatchClock's per-second tick): each is a notification with no effect on the modelled state.
- QTimer scheduling is modelled as a boolean ticker flag, and the timer interval computed from fps and speed is not modelled.
- QElapsedTimer is modelled as a validity flag, an origin and a `now` argument; the real clock and its monotonicity are not modelled.
- Wall-clock timestamps (`datetime.now`, frame timestamps, `completed_at`, `scheduled_at`) are not modelled, because they are I/O.
- Floating point: the replay speeds are integers in thousandths of normal speed (125..2000), and the float comparison of `SPEEDS.index` becomes integer equality.
- Replay.ClampSpeed: a speed between two thousandths has no counterpart.
- seek_to_seconds, seek_relative and get_marked_duration are not modelled, because they only convert between float seconds and frame indices.
- The remaining_seconds, current_time and duration_seconds properties are not modelled, because they are float conversions of modelled values.
- The video writing of export_clip (OpenCV, file paths, codecs, the progress callback) is left out. Replay.ReplayEngine.ClipFrames gives only the frames it would write.
- The message strings of PenaltyResult and of the exceptions are not modelled, because they are text for display.
- The ORM columns and the persistence of FoulRecord are not modelled, because they are storage, not logic.
- get_eliminated_players, get_score_state and _emit_score_update of the scoring engine are not modelled, because they only read state or format it for display.
- The game_mode attribute of the scoring engine (engine/scoring.py:111) is not modelled; it is only read to fill total_games in the score update.
- The `state` setter (engine/scoring.py:163-167) is a plain field write in the model; its state_changed signal is left out with the other signals.
- The bracket's get_bracket_display, _match_to_dict and get_current_stage are not modelled; they format or return stored state.
- The unused `position` field of BracketSlot is not modelled.
- String ids are structured values: a group is its index, a group match is (group, number), and a knockout match or slot is (stage, number, side). Parsing ids from strings is not modelled.
- Records that the source mutates in place (player positions, bracket matches, standings) are values in sequences, and the records the source returns are copies. Aliasing of returned records is therefore not modelled.
- Python integer widths need no modelling; Dafny's unbounded integers match Python's.
- RingBuffers.ReplayBuffer.constructor: requires max_seconds * fps >= 0, because a deque with a negative maxlen raises an error.
- The frame payload of the ring buffer is a type parameter, and frame pixels and shapes are not modelled.
- PlayerQueues.CompactQueue: renumbers by the vacated box, which equals sorting by box and renumbering only under the queue invariant, the only situation in which it is called.

## Findings

| source | as written | input that shows it | evidently intended | confidence | as-written member | corrected member |
|---|---|---|---|---|---|---|
| engine/player_queue.py:139-151 | advance_queue sends the box-1 player to box `len(active_players)` and marks them inactive; with one player left that box is 1 again, so box 1 ends up held by an inactive player | a team queue with exactly one live player, in box 1, and a call to advance_queue | the player in box 1 is active after every advance, the lone player included | not executed | PlayerQueues.AdvanceAsWrittenDeactivatesLonePlayer | PlayerQueues.AdvancePreservesInvariant |
