# Darts scoring core, modelled in Dafny

This project models the scoring logic of a browser darts app. The app has three game pages (501, 301 and count-up) and a few shared pieces:

- a decoder for the codes an electronic board sends;
- a coordinate decoder;
- a manual input pad;
- a player setup form;
- a score panel of one card per player;
- a monitor of the raw device readings.

Every page keeps the same state cells:

- `gamePlayData`: per player, the list of closed turns, each a list of throws;
- `currentTurnData`: the open turn;
- `currentThrow`, `currentPlayerIndex`, `gameCompleted` and `winner`;
- on 301 and count-up, a pending correction.

These are the fields of the datatype `PlayData.GameState`.

Each page is a class whose fields are those cells. Every handler is a method whose `ensures` ties the new state to a pure transition function of the old state (`State() == Hit(old(State()), points)`). The lemmas beside each class prove what the handlers promise about those functions: bust, finish, turn closing, rotation, round completion, the winner, corrections and the invariants the handlers keep.

Modules:

- `Dartsio` (`src/utils/dartsioParser.ts`): `trim`/`toUpperCase` normalisation, then the code grammar (`S00`/`MISS`/`0`, `S|D|T` with two digits 1..20, `B25`/`B50`). It proves soundness, completeness against a canonical encoder, the round trip, and that padding and case are ignored.
- `Board` (`calculatePointsFromCoordinates`/`getDartBoardSection`, 501.tsx:64-85): the radius band ladder over a real distance and the 20-entry sector table indexed by the 18-degree bucket of an angle in degrees, with JavaScript's truncating `%`. The sector order follows the table in the code. That table starts at the +x axis and runs counter-clockwise. It is not the clockwise-from-top order 20, 1, 18, … in which a board is usually described.
- `Players` (`src/components/PlayerSetup.tsx`): the player record, the name list's count and name changes, and the players built at the start.
- `PlayData`: the shared state, sums, the turn lists, game start/reset, and the correction handlers of 301 and count-up.
- `Rotation`: the `nextPlayer` scans, both the `while` loop of 501/301 and the `while (true)` loop of count-up, as methods proved equal to one specification function.
- `Countdown`: what 501 and 301 share (score, bust, finish, the turn close and `nextPlayer`).
- `Game501`, `Game301`, `CountUp`: the three page engines.
- `DartBoardInput` (`src/components/DartBoard.tsx`): the manual pad's selection state and point rule.
- `ScoreDisplay` (`src/components/GameScoreDisplay.tsx`) and `ScoreCard` (`src/components/PlayerScoreCard.tsx`): the projections shown to players, including the mapping from a shown turn to the index a correction addresses.
- `DataMonitor` (`src/components/DartsioDataDisplay.tsx`): the bounded reading history.

JavaScript details written out:

- A missing inner list reads as an empty list.
- `x || 0` becomes an explicit test.
- `arr[i] = v` past the end leaves holes. The model writes a hole as a 0 throw or an empty turn, which keeps the length of the written list (see Left out for what this loses).
- `Array.from({length: n})` with a negative `n` is empty.
- `slice(-k)` of a shorter list is the whole list.
- `%` truncates toward zero.

## Model

| member | source | states |
|---|---|---|
| Dartsio.ParseSound | src/utils/dartsioParser.ts:14-99 | every decoded hit is a miss, a single/double/triple of a section 1..20 or a bull; its points are section × multiplier and lie in 0..60 |
| Dartsio.EncodeRoundTrip | src/utils/dartsioParser.ts:18-94 | the canonical code of every hit the decoder can produce decodes back to exactly that hit |
| Dartsio.ParseComplete | src/utils/dartsioParser.ts:14-98 | an input decodes only if it normalises to the canonical code of its hit, or to `MISS` or `0` for a miss; every other input gives null |
| Dartsio.PaddingIgnored | src/utils/dartsioParser.ts:15 | any surrounding whitespace that `trim` removes leaves the result unchanged |
| Dartsio.CaseIgnored | src/utils/dartsioParser.ts:15 | lower-case ASCII input decodes exactly like its upper-case form |
| Dartsio.NormaliseIdempotent | src/utils/dartsioParser.ts:15 | normalising twice equals normalising once |
| Dartsio.ParseOfNormalised | src/utils/dartsioParser.ts:15 | decoding an input and decoding its normalised form agree |
| Dartsio.ValidFinishIffNotMiss | src/utils/dartsioParser.ts:106-110 | `isValidFinish` holds for a decoded hit iff it is not a miss (points > 0) |
| Dartsio.ExamplePadded | src/utils/dartsioParser.ts:15 | `" s20 "` decodes like `"S20"`, to single 20 |
| Dartsio.ExampleSingle | src/utils/dartsioParser.ts:29-41 | `S20` is a single 20 |
| Dartsio.ExampleMiss | src/utils/dartsioParser.ts:18-26 | `S00`, `MISS` and `0` all decode to the miss record |
| Dartsio.ExampleDisplayText | src/utils/dartsioParser.ts:38 | `S03` shows as `S3` (no leading zero) |
| Dartsio.ExampleTriple | src/utils/dartsioParser.ts:58-71 | `T20` scores 60 |
| Dartsio.ExampleDouble | src/utils/dartsioParser.ts:43-56 | `D01` scores 2 |
| Dartsio.ExampleBulls | src/utils/dartsioParser.ts:73-94 | `B25` and `B50` are the outer and inner bull; `B30` is rejected |
| Dartsio.ExampleRejectedSection | src/utils/dartsioParser.ts:29-98 | `S21` and `D00` (section outside 1..20) give null |
| Dartsio.ExampleRejectedShape | src/utils/dartsioParser.ts:96-98 | `S5` and `X10` (not a letter and two digits of the grammar) give null |
| Board.SectorTableIsPermutation | src/pages/game/501.tsx:82 | the sector table is a permutation of 1..20: an independent position function inverts it both ways |
| Board.NormalisedAngleRange | src/pages/game/501.tsx:81 | for every angle from -369 degrees up, `(angle + 369) % 360` lies in [0, 360) |
| Board.BucketSpan | src/pages/game/501.tsx:83 | bucket b covers exactly the normalised angles [18b, 18b + 18) |
| Board.SectionFromAngleInRange | src/pages/game/501.tsx:79-85 | the bucket of any angle `atan2` can give is in 0..19, so the `\|\| 0` fallback never fires and the section is in 1..20 |
| Board.SectionPeriodic | src/pages/game/501.tsx:81 | adding whole turns to the angle does not change the section |
| Board.ClassifyScores | src/pages/game/501.tsx:64-77 | each rung of the radius ladder scores what the hit record of its ring scores (inner bull, outer bull, single, triple, single, double, miss) |
| Board.CoordinateAgreesWithCode | src/pages/game/501.tsx:64-85 | every coordinate outcome equals the points of a device code, namely the canonical code of the ring and sector hit |
| Board.CoordinatePointsBounds | src/pages/game/501.tsx:64-77 | coordinate scores lie in 0..60, are 0 from radius 170 outwards and positive inside it |
| Players.DefaultNamesDistinct | src/components/PlayerSetup.tsx:28 | default names of different slots differ |
| Players.PlayerIdsDistinct | src/components/PlayerSetup.tsx:41 | the ids `player-(i+1)` of different slots differ |
| Players.DefaultNameNonEmpty | src/components/PlayerSetup.tsx:28 | a default name is never empty |
| Players.ResizedShape | src/components/PlayerSetup.tsx:25-31 | a count change gives exactly `count` names; slot i keeps a non-empty old name, else gets the default name of slot i+1; no name is empty |
| Players.ResizedKeepsNames | src/components/PlayerSetup.tsx:27-29 | shrinking keeps a prefix of the names, growing keeps all of them and adds default names |
| Players.ResizedIdempotent | src/components/PlayerSetup.tsx:25-31 | changing to the same count twice equals doing it once |
| Players.NameChangeShape | src/components/PlayerSetup.tsx:33-37 | a name change replaces only the given slot, and an empty name becomes that slot's default name |
| Players.StartingPlayersShape | src/components/PlayerSetup.tsx:39-51 | one player per name with id `player-(i+1)`, score 501, counter 1, empty histories, not finished, exactly player 0 active, ids pairwise distinct |
| Players.Setup.constructor | src/components/PlayerSetup.tsx:22-23 | the form starts with one player named with the first default name |
| Players.Setup.ChangeCount | src/components/PlayerSetup.tsx:25-31 | the count is set and the names resized, keeping the invariant that there are `playerCount` names |
| Players.Setup.ChangeName | src/components/PlayerSetup.tsx:33-37 | only the given slot changes, to the name or its default |
| Players.Setup.StartGame | src/components/PlayerSetup.tsx:39-53 | returns exactly the starting players of the current names, one per counted player |
| PlayData.AppendTurnFacts | src/pages/game/501.tsx:169-174 | appending a turn extends exactly that player's list and adds its sum to that player's closed total |
| PlayData.StartGameFacts | src/pages/game/501.tsx:187-201 | a start gives every player an empty turn list, index 0, no winner, an empty open turn and counter 1 |
| PlayData.CorrectClosedTurn | src/pages/game/301.tsx:96-125 | a correction of a closed turn writes exactly that slot, changes the player's total by the new minus the reported value, leaves all other turns and players alone and ends edit mode |
| PlayData.CorrectOpenTurn | src/pages/game/301.tsx:101-106 | a correction at turn -1 rewrites only that slot of the open turn |
| PlayData.CorrectIdempotent | src/pages/game/301.tsx:96-125 | applying the same correction twice equals applying it once |
| PlayData.NoEditAfterCompletion | src/pages/game/301.tsx:73-74 | a correction cannot start after completion |
| PlayData.CancelThenUpdate | src/pages/game/301.tsx:128-130 | after a cancel the next value writes nothing |
| PlayData.CorrectionSurvivesNewGame | src/pages/game/countup.tsx:286-315 | as written, start and reset leave a pending closed-turn correction in place, so the first pad value of the new game creates that old turn slot in the empty list and books the value there (see Findings) |
| PlayData.NewGameStartsClean | src/pages/game/countup.tsx:286-315 | when start and reset also clear the correction, nothing is pending, a pad value writes nothing, every turn list is empty and every other cell is as the page sets it |
| Rotation.NextIndex | src/pages/game/501.tsx:222-234 | the scan result is always a valid player index |
| Rotation.NextIndexSpec | src/pages/game/501.tsx:222-234 | the scan returns the first eligible cyclic successor of the current index, or the current index exactly when no other player is eligible |
| Rotation.NextIndexMoves | src/pages/game/501.tsx:225-234 | with at least two eligible players the scan moves to a different, eligible player |
| Rotation.NextIndexFinds | src/pages/game/countup.tsx:329-345 | with at least one eligible player the scan ends on an eligible player |
| Rotation.ActivateFacts | src/pages/game/501.tsx:237-241 | afterwards exactly the chosen player is active with counter 1; everyone else keeps their counter and identity |
| Rotation.RotateFacts | src/pages/game/501.tsx:218-246 | `nextPlayer` does nothing when completed, with at most one player or too few eligible players; otherwise it moves to the scan result, resets the counter and leaves the play data alone |
| Rotation.ScanWhileIneligible | src/pages/game/501.tsx:232-234 | the `while` loop of 501 and 301 computes the scan result |
| Rotation.ScanUntilEligible | src/pages/game/countup.tsx:334-345 | the `while (true)` loop of count-up computes the same scan result |
| Countdown.ScoreIsTargetMinusClosed | src/pages/game/501.tsx:48-54 | a player's score is the start score minus the sum of their closed turns; the open turn is not subtracted |
| Countdown.NextPlayerFacts | src/pages/game/501.tsx:218-246 | with two or more players on a positive score, play moves to the first cyclic successor on a positive score and exactly that player is active; otherwise nothing changes |
| Countdown.AfterBustFacts | src/pages/game/501.tsx:98-120 | on a bust the open throws (if any) become one closed turn, the busting throw is not recorded, the open turn empties, the counter is 1, and a single player keeps the turn |
| Countdown.AfterFinishFacts | src/pages/game/501.tsx:129-159 | on a finish the open turn plus the finishing throw is appended, the game completes with the current player as winner on score 0, and nobody rotates |
| Countdown.CloseTurnFacts | src/pages/game/301.tsx:133-160 | closing a turn appends it, empties the open turn, resets the counter and keeps a single player |
| Countdown.WinnerHistoryRepeatsFinish | src/pages/game/501.tsx:140-149 | the winner record's throw history ends with the finishing throw twice (see Findings) |
| Countdown.FinishedHistoryCountsEachThrowOnce | src/pages/game/501.tsx:136-154 | the intended winner history, the flattened turn list, holds each throw once and sums to the closed total |
| Game501.Game.constructor | src/pages/game/501.tsx:30-43 | the page starts in the initial state |
| Game501.Game.HandleGameStart | src/pages/game/501.tsx:187-201 | the new state is the start state, and the invariant holds |
| Game501.Game.ResetGame | src/pages/game/501.tsx:203-216 | the new state is the reset state, and the invariant holds |
| Game501.Game.NextPlayer | src/pages/game/501.tsx:218-246 | the new state is the `nextPlayer` transition, computed by the loop |
| Game501.Game.HandleDartHit | src/pages/game/501.tsx:87-185 | the new state is the hit transition, and the invariant holds |
| Game501.StartIsCoherent | src/pages/game/501.tsx:187-201 | start and reset give a coherent state where every score is 501 |
| Game501.HitKeepsCoherent | src/pages/game/501.tsx:162-184 | a hit keeps the counter equal to the open length plus 1 and closed turns at 1..3 throws; between events the open turn holds at most 2 throws |
| Game501.HitAgainstKeepsCoherent | src/pages/game/501.tsx:87-185 | the hit keeps coherence against any remaining score it is tested with |
| Game501.HitAfterCompletion | src/pages/game/501.tsx:88 | a hit after completion changes nothing |
| Game501.HitOutcome | src/pages/game/501.tsx:93-160 | the game completes iff the closed-turn score minus the throw is 0; a bust (below 0 or 1) drops the throw and keeps every earlier throw |
| Game501.HitBusts | src/pages/game/501.tsx:98-120 | a busting hit is exactly the bust transition |
| Game501.HitFinishes | src/pages/game/501.tsx:134-159 | a finishing hit appends the turn with the throw and records the current player as winner on 0 |
| Game501.HitProceeds | src/pages/game/501.tsx:162-184 | throws 1 and 2 advance the counter; the third closes the three-throw turn and resets the counter |
| Game501.OvershootFinishes | src/pages/game/501.tsx:94-95 | as written, a player on 50 who throws 20 and then 50 finishes with 521 scored (see Findings) |
| Game501.OvershootWithoutBust | src/pages/game/501.tsx:94-98 | as written, a player on 100 throws three 60s without a bust and ends on -80 |
| Game501.HitLiveKeepsScoresLegal | src/pages/game/501.tsx:94-98 | with the open turn subtracted in the test, no live score ever goes below 0 or to 1 |
| Game501.HitLiveFinishIsExact | src/pages/game/501.tsx:134-142 | with the open turn subtracted in the test, a finish means exactly 501 scored |
| Game301.Game.constructor | src/pages/game/301.tsx:30-53 | the page starts in the initial state |
| Game301.Game.HandleGameStart | src/pages/game/301.tsx:278-292 | the new state is the start state |
| Game301.Game.ResetGame | src/pages/game/301.tsx:294-307 | the new state is the reset state |
| Game301.Game.NextPlayer | src/pages/game/301.tsx:309-337 | the new state is the `nextPlayer` transition, computed by the loop |
| Game301.Game.HandleDartHit | src/pages/game/301.tsx:185-276 | the new state is the 301 hit transition |
| Game301.Game.FinishCurrentTurn | src/pages/game/301.tsx:133-160 | the new state is the Enter-key turn close |
| Game301.Game.StartEditHistoryData | src/pages/game/301.tsx:73-93 | the new state is the correction start |
| Game301.Game.UpdateHistoryData | src/pages/game/301.tsx:96-125 | the new state is the correction write |
| Game301.Game.CancelEditHistoryData | src/pages/game/301.tsx:128-130 | the pending correction is dropped |
| Game301.Game.DartBoardHit | src/pages/game/301.tsx:463-466 | a pad value goes to the pending correction if there is one, else it is a hit |
| Game301.HitKeepsRange | src/pages/game/301.tsx:185-276 | a hit keeps the index valid and the counter in 1..3 |
| Game301.FinishKeepsRange | src/pages/game/301.tsx:133-160 | the turn close keeps the index valid and the counter in 1..3 |
| Game301.HitKeepsCounted | src/pages/game/301.tsx:266-275 | the counter stays min(open length + 1, 3) and closed turns hold 1..3 throws |
| Game301.FinishKeepsCounted | src/pages/game/301.tsx:133-160 | the turn close keeps the same counting invariant |
| Game301.HitNeverClosesATurn | src/pages/game/301.tsx:266-275 | a legal hit never closes a turn; with three throws open it is ignored, else it is appended |
| Game301.FinishTurnCloses | src/pages/game/301.tsx:133-160 | Enter acts only with the game running, counter 3 and three throws open; then it appends the turn and resets the open turn and counter, else nothing changes |
| Game301.ThreeThrowsThenEnter | src/pages/game/301.tsx:189-192 | after three legal throws a fourth hit is ignored and Enter records exactly those three |
| Game301.NothingAfterCompletion | src/pages/game/301.tsx:186 | after completion hits, Enter and pad values change nothing |
| Game301.ManualInputCorrects | src/pages/game/301.tsx:463-466 | with a correction pending, a pad value writes the correction and ends edit mode |
| Game301.OvershootWithoutBust | src/pages/game/301.tsx:197-199 | as written, a player on 40 throws three 20s without a bust and holds a live score of -20 (see Findings) |
| Game301.HitLiveKeepsScoresLegal | src/pages/game/301.tsx:197-202 | with the open turn subtracted in the test, no live score ever goes below 0 or to 1 |
| Game301.FinishKeepsScoresLegal | src/pages/game/301.tsx:133-160 | the turn close keeps all live scores legal |
| Game301.OpenCorrectionSurvivesEnter | src/pages/game/301.tsx:133-160 | as written, a pending correction of the open turn survives Enter; the next pad value writes the corrected slot of the emptied turn, leaving holes before it (modelled as 0) and the counter at 1, and from slot 2 on hits and Enter are ignored (see Findings) |
| Game301.CorrectedEnterKeepsOpenTurn | src/pages/game/301.tsx:128-160 | when Enter also ends an open-turn correction, the next pad value either is a hit, which keeps the counting invariant, or leaves the open turn and counter alone |
| Game301.HitLiveFinishIsExact | src/pages/game/301.tsx:238-248 | with the open turn subtracted in the test, a finish means exactly 301 scored |
| CountUp.Leader | src/pages/game/countup.tsx:171-179 | the leader of a non-empty list is one of its indices; that it is the lowest index of the largest total is `CountUp.LeaderSpec` |
| CountUp.Game.constructor | src/pages/game/countup.tsx:30-43 | the page starts in the initial state with 8 rounds |
| CountUp.Game.SelectRounds | src/pages/game/countup.tsx:421-430 | one of the offered round counts 4, 6, 8 or 10 is set, and nothing else changes |
| CountUp.Game.HandleGameStart | src/pages/game/countup.tsx:286-300 | the new state is the start state |
| CountUp.Game.ResetGame | src/pages/game/countup.tsx:302-315 | the new state is the reset state |
| CountUp.Game.NextPlayer | src/pages/game/countup.tsx:317-357 | the new state is the count-up `nextPlayer` transition, computed by the `while (true)` loop |
| CountUp.Game.HandleDartHit | src/pages/game/countup.tsx:252-284 | the new state is the count-up hit transition |
| CountUp.Game.FinishCurrentTurn | src/pages/game/countup.tsx:138-227 | the new state is the page's own close (`FinishTurnAsWritten`): the turn is pushed and the round check runs on the pushed lists; the winner totals, the winner's `gameHistory`, the single player's final score and `nextPlayer`'s rounds-left test read the render's play data and the uncleared open turn |
| CountUp.Game.SettleAfterClose | src/pages/game/countup.tsx:159-226 | after the push, the round check on the pushed lists, then the winner chosen by the `forEach` loop, its history, the single final score and the rotation, all read from the given view |
| CountUp.Game.NextPlayerSeeing | src/pages/game/countup.tsx:317-357 | the rotation by the `while (true)` loop, with rounds left counted in the play data the closure sees |
| CountUp.Game.StartEditHistoryData | src/pages/game/countup.tsx:78-98 | the new state is the correction start |
| CountUp.Game.UpdateHistoryData | src/pages/game/countup.tsx:101-130 | the new state is the correction write |
| CountUp.Game.CancelEditHistoryData | src/pages/game/countup.tsx:133-135 | the pending correction is dropped |
| CountUp.Game.DartBoardHit | src/pages/game/countup.tsx:512-515 | a pad value goes to the pending correction if there is one, else it is a hit |
| CountUp.PickWinner | src/pages/game/countup.tsx:171-179 | the loop returns the leader: no total exceeds the maximum, and when it is at least 0 the index is the first one holding it |
| CountUp.LeaderSpec | src/pages/game/countup.tsx:171-179 | with the strict `>` from -1, the leader is the lowest index of the maximal total |
| CountUp.FirstMaxUnique | src/pages/game/countup.tsx:175 | at most one index is the first maximum, so the winner is determined |
| CountUp.HitAddsToTotal | src/pages/game/countup.tsx:252-284 | there is no bust: a hit with fewer than 3 throws open adds its points to the current player's total only; a fourth hit or one after completion is ignored |
| CountUp.HitKeepsCounted | src/pages/game/countup.tsx:274-283 | the counter stays min(open length + 1, 3) |
| CountUp.AppendedKeepsTotals | src/pages/game/countup.tsx:148-157 | closing a turn leaves every player's total unchanged |
| CountUp.FinishTurnOutcome | src/pages/game/countup.tsx:138-167 | the close acts only with 3 throws open and counter 3; it appends the turn, and the game completes iff the player reached the rounds and, with several players, everyone did |
| CountUp.FinishTurnPicksFirstHighest | src/pages/game/countup.tsx:169-193 | at completion the winner is the first player with the highest total, recorded with that total and that player's turns |
| CountUp.FinishTurnKeepsTotals | src/pages/game/countup.tsx:148-157 | after the close every closed sum equals the total before it |
| CountUp.SingleFinishRecordsTotal | src/pages/game/countup.tsx:200-217 | a single player completes on reaching the rounds, with their final total recorded |
| CountUp.FinishTurnRotates | src/pages/game/countup.tsx:196-226 | a close that does not complete the game rotates to the next player with rounds left |
| CountUp.NextPlayerFacts | src/pages/game/countup.tsx:317-357 | `nextPlayer` returns early when nobody has rounds left; otherwise it moves to the first cyclic successor with rounds left and exactly that player is active |
| CountUp.NothingAfterCompletion | src/pages/game/countup.tsx:139 | after completion hits, Enter and pad values change nothing |
| CountUp.AsWrittenTotalsCountLastTurnTwice | src/pages/game/countup.tsx:173-179 | as written, the winner loop counts the closing player's last turn twice (see Findings) |
| CountUp.AsWrittenPicksWrongWinner | src/pages/game/countup.tsx:171-193 | as written, with A on 30 and B closing a turn of 20, B is declared winner on 40; the intended close picks A on 30 |
| CountUp.AsWrittenSingleFinalScore | src/pages/game/countup.tsx:203-207 | as written, a single player's recorded final score adds the last turn twice |
| CountUp.AsWrittenDiffersOnlyInWinner | src/pages/game/countup.tsx:138-215 | the page's close and the intended close agree on every state cell but the winner record; both record a winner or neither does, and each winner's history is its flattened turn list |
| CountUp.OpenCorrectionSurvivesEnter | src/pages/game/countup.tsx:138-157 | as written, a pending correction of the open turn survives Enter; the next pad value writes the corrected slot of the emptied turn, leaving holes before it (modelled as 0) and the counter at 1, and from slot 2 on hits and Enter are ignored (see Findings) |
| CountUp.CorrectedEnterKeepsCounted | src/pages/game/countup.tsx:129-157 | when Enter also ends an open-turn correction, as update and cancel do, the counter stays in step with the open turn after Enter and after the next pad value |
| DartBoardInput.DartBoard.constructor | src/components/DartBoard.tsx:9-10 | no section is selected and the multiplier is 1 |
| DartBoardInput.DartBoard.ClickSection | src/components/DartBoard.tsx:14-16 | an enabled click selects that section and emits nothing; a disabled click changes nothing |
| DartBoardInput.DartBoard.ClickMultiplier | src/components/DartBoard.tsx:18-20 | with a numbered section selected (the only time the buttons are rendered), an enabled click selects that multiplier and emits nothing; a disabled click changes nothing |
| DartBoardInput.DartBoard.Submit | src/components/DartBoard.tsx:22-32 | with a selection on an enabled pad it emits the points and clears the selection to none and 1; otherwise it emits nothing and changes nothing |
| DartBoardInput.PointsRange | src/components/DartBoard.tsx:25-27 | every emitted value lies in 1..60, bulls are never multiplied, and a number scores section × multiplier |
| DartBoardInput.EmittedFacts | src/components/DartBoard.tsx:22-32 | a submit emits iff something is selected and the pad is enabled, and never emits 0 |
| DartBoardInput.PointsAgreeWithDevice | src/components/DartBoard.tsx:25-27 | a pad entry scores what the device code of the same ring and section decodes to |
| ScoreDisplay.DisplayIsLiveScore | src/components/GameScoreDisplay.tsx:53-61 | on 501/301 the shown score is the closed-turn score, minus the open turn for the current player only |
| ScoreDisplay.CountUpDisplayIsNegatedTotal | src/components/GameScoreDisplay.tsx:60 | with start score 0 the count-up panel shows minus the player's total |
| ScoreDisplay.ScoreFallbacks | src/components/GameScoreDisplay.tsx:62-69 | without play data the player's own score is shown, else the single score (or the start score when it is 0) minus the open turn |
| ScoreDisplay.HistoriesFromPlayData | src/components/GameScoreDisplay.tsx:73-94 | the history is the player's turns concatenated and sums to the closed total; the turn list is the list itself |
| ScoreDisplay.PlayersToDisplayShape | src/components/GameScoreDisplay.tsx:97-113 | without players there is one active card, finished iff its score is 0; with players, one card each keeps identity and flags, and only the current player's card takes a non-empty open turn |
| ScoreDisplay.CountUpCardsShowBust | src/pages/game/countup.tsx:505 | with start score 0 every count-up card with a positive total is red and labelled BUST; only a total of 0 is green and reads as finished |
| ScoreDisplay.CardIndexAddressesShownTurns | src/components/GameScoreDisplay.tsx:169 | the player index a card sends with a correction addresses the turn list that card shows |
| ScoreDisplay.FinishedWinnerShownNegative | src/components/GameScoreDisplay.tsx:53-61 | as written, after a finish the winner's card shows minus the throw minus twice the open throws, a BUST (see Findings) |
| ScoreDisplay.SettledScoreShowsFinish | src/components/GameScoreDisplay.tsx:53-61 | the intended score agrees with the panel during play and shows a live-score winner at exactly 0 |
| ScoreCard.Reverse | src/components/PlayerScoreCard.tsx:187 | `reverse` puts element k at position n-1-k |
| ScoreCard.ColourLadder | src/components/PlayerScoreCard.tsx:36-44 | green at 0, red below 0, yellow in 1..50, white above: four disjoint classes; BUST is shown exactly for red |
| ScoreCard.FinishRangeExcludesFlags | src/components/PlayerScoreCard.tsx:227 | the finish-range hint shows iff the score is in 1..170 and the player has not finished, so never with a finished or bust score |
| ScoreCard.ShownNewestFirst | src/components/PlayerScoreCard.tsx:187-206 | at most the 3 newest closed turns are shown, newest first; position k is turn n-k-1, always valid, labelled n-k |
| ScoreCard.PlaceholdersFill | src/components/PlayerScoreCard.tsx:177 | a turn of at most 3 throws is padded to exactly 3 slots; a longer one gets none |
| ScoreCard.TotalTurnsCountsOpenTurn | src/components/PlayerScoreCard.tsx:46-48 | the turn count is the closed turns plus one exactly when the open turn holds a throw |
| ScoreCard.ClosedClickAddressesShownThrow | src/components/PlayerScoreCard.tsx:202-206 | a click on a shown closed throw asks to correct that very throw: the page reports the shown value, and the correction writes that slot only |
| ScoreCard.OpenClickAddressesOpenThrow | src/components/PlayerScoreCard.tsx:165-170 | a click on an open throw asks for turn -1 at that throw, and the correction rewrites only it |
| ScoreCard.NoClickWhenLocked | src/components/PlayerScoreCard.tsx:165-170 | without a handler, or after completion, no click requests anything; otherwise every click does |
| DataMonitor.Recent | src/components/DartsioDataDisplay.tsx:112 | the monitor lists min(5, n) readings, newest first |
| DataMonitor.DataDisplay.constructor | src/components/DartsioDataDisplay.tsx:27-29 | the monitor starts empty with no error |
| DataMonitor.DataDisplay.HandleData | src/components/DartsioDataDisplay.tsx:39-44 | a reading becomes the latest, is appended with the oldest beyond 20 dropped, and clears the error; the history stays the 20 newest arrivals |
| DataMonitor.DataDisplay.HandleError | src/components/DartsioDataDisplay.tsx:46-49 | an error sets the message and touches nothing else |
| DataMonitor.DataDisplay.Disconnect | src/components/DartsioDataDisplay.tsx:31-36 | on disconnect the history empties, the latest reading is null and the error is cleared |
| DataMonitor.KeepIsNewest | src/components/DartsioDataDisplay.tsx:42 | keep-19-then-append on the 20 newest is the 20 newest of all arrivals, so order is kept with the newest last |
| DataMonitor.NewestIsBoundedTail | src/components/DartsioDataDisplay.tsx:42 | the retained history is a contiguous tail of the arrivals, at most 20 long, ending with the latest |
| DataMonitor.KeepBounded | src/components/DartsioDataDisplay.tsx:42 | one append never grows the history past 20 and ends it with the new reading; a full history loses exactly its oldest entry |
| DataMonitor.RecentIsNewestReversed | src/components/DartsioDataDisplay.tsx:112 | the listed readings are the 5 newest in reverse arrival order |

## Left out

- Device I/O and transport: the Electron main and preload processes, Bluetooth/serial connection handling, IPC and the random mock data (including `generateTestDartsioData`). Readings enter the model as parameters.
- Event-listener wiring: the `useEffect` blocks that subscribe to device data and keys, including their dependency lists. The Enter key is the `FinishCurrentTurn` method.
- Floating-point geometry: `Math.sqrt`, `Math.atan2` and the degree conversion. `Board` takes the distance and the angle in degrees as real inputs.
- Float averages: the per-turn average on the card (PlayerScoreCard.tsx:51-53) is rendering with `toFixed`.
- Console logging, locale timestamp formatting, and the `dartHistory`/`lastDartHit` display state.
- The player record's `dartHistory` field: nothing in the core reads it.
- React batching is not modelled: each handler is one transition. Stale closure reads are modelled where they change a visible result. The count-up class closes a turn as the page does (`FinishTurnAsWritten`). The round check runs on the pushed lists. The winner totals, the winner's `gameHistory`, the single player's final score and `nextPlayer`'s rounds-left test read the render's play data and the uncleared open turn. The 501/301 winner history reads the stale history (see Findings).
- The stale read in `nextPlayer`: it runs in the closure of the render before the bust or turn close. The turn was pushed into the same inner list that the old play data holds, so the old data already contains it. The two views differ only when the player had no list, which cannot happen after a start, so the 501 and 301 models use the updated data. The count-up class passes the view the closure sees.
- Holes in the outer play-data list (a player index without a list) are read as empty lists. After a game start every player has a list.
- PlayData.SetSlot, PlayData.SetThrow: a correction written past the end of a turn or a turn list leaves holes in JavaScript. The model writes them as 0 throws and empty turns. So it does not capture that a later spread (`[...currentTurnData, points]` at countup.tsx:271 and 301.tsx:234, the bust push at 301.tsx:213) turns a hole into `undefined`. Nor does it capture that a sum over that then gives NaN on the panel and in the 301 bust test, or that `flat()` drops holes and so shortens the flattened history and the banner's dart count. Only the correction paths listed under Findings write past the end.
- Name editing inside a card (a cosmetic `useState`) and the numbered card title (GameScoreDisplay.tsx:158) are text formatting.
- Rendering, routing and layout components (score summaries, layout, index and app pages).
- Game501, Game301: the classes keep the code's closed-turn bust/finish test. The corrected test `HitLive` is modelled and proved beside them, not wired into the handlers.
- The corrected count-up close `FinishTurn`, the Enter key that also ends an open-turn correction (`FinishTurnEndingCorrection` on 301 and count-up), and the start and reset that clear a correction (`StartGameEndingCorrection`, `ResetGameEndingCorrection`) are proved beside the classes, which keep the code's behaviour.
- Count-up cards: with start score 0 the panel negates each total, so every card with points is red and labelled BUST (`ScoreDisplay.CountUpCardsShowBust`). Whether the authors meant this is not evident from the code, so it is stated as a property and not listed as a finding.

## Findings

| source | as written | input that shows it | evidently intended | confidence | as-written member | corrected member |
|---|---|---|---|---|---|---|
| src/pages/game/501.tsx:94-95 | the bust/finish test subtracts the throw from the closed-turn score, ignoring the throws already in the open turn | a player on 50 throws 20, then 50: 50 - 50 = 0, so the game completes with 521 scored; three 60s from 100 pass without a bust and leave -80 | test against the live score (closed turns plus open turn), which is what the panel shows | not executed | Game501.OvershootFinishes | Game501.HitLiveKeepsScoresLegal |
| src/pages/game/301.tsx:197-199 | same closed-turn test on 301 | a player on 40 throws three 20s: no bust, live score -20 | test against the live score | not executed | Game301.OvershootWithoutBust | Game301.HitLiveKeepsScoresLegal |
| src/pages/game/countup.tsx:173-179 | the winner loop calls `getCurrentPlayerScore`. That reads this render's play data, whose inner list already received the pushed turn through the shallow copy, and it also adds the not yet cleared open turn | A has [10,10,10]; B, current, closes [20,0,0] in the last round: B is counted 40 and wins over A's 30 | closed totals after the close: A wins on 30 | not executed | CountUp.AsWrittenPicksWrongWinner | CountUp.FinishTurnPicksFirstHighest |
| src/pages/game/501.tsx:149 | the winner's `gameHistory` is the stale history plus the finishing throw. The stale history already holds the pushed finishing turn, so the throw appears twice | any finish, e.g. one throw of 50 from 50: the history ends 50, 50 and the banner (GameScoreDisplay.tsx:140) counts one dart too many | each throw once: the flattened turn list | not executed | Countdown.WinnerHistoryRepeatsFinish | Countdown.FinishedHistoryCountsEachThrowOnce |
| src/components/GameScoreDisplay.tsx:57-60 | after a 501/301 finish the page keeps the finishing turn open (501.tsx:130-131), and it is also appended, so the panel subtracts it twice | a finish with one throw of 50 from 50: the winner's card shows -50 in red as BUST | subtract the open turn only while the game runs; the winner shows 0 | not executed | ScoreDisplay.FinishedWinnerShownNegative | ScoreDisplay.SettledScoreShowsFinish |
| src/pages/game/countup.tsx:203-207 | a single player's final score is `getCurrentPlayerScore(0)`, read from this render: the play data already holds the pushed turn and the open turn is not yet cleared | one player, one round, throws 20, 0, 0: the recorded final score is 40 | the closed total after the turn: 20 | not executed | CountUp.AsWrittenSingleFinalScore | CountUp.SingleFinishRecordsTotal |
| src/pages/game/countup.tsx:138-157 | Enter clears the open turn but not a pending correction of it; only update and cancel end a correction (countup.tsx:129, 134) | click open throw 3 (throw index 2), then press Enter, then enter 5 on the pad: the next player's open turn becomes two holes and 5 (length 3) with the counter at 1, so every hit and Enter after it is ignored | Enter also ends a correction of the turn it closes | not executed | CountUp.OpenCorrectionSurvivesEnter | CountUp.CorrectedEnterKeepsCounted |
| src/pages/game/301.tsx:133-160 | the same on 301: Enter keeps a pending correction of the open turn | the same clicks on 301: the open turn becomes two holes and 5 (length 3) with the counter at 1 and play is stuck | Enter also ends a correction of the turn it closes | not executed | Game301.OpenCorrectionSurvivesEnter | Game301.CorrectedEnterKeepsOpenTurn |
| src/pages/game/countup.tsx:286-315 | `handleGameStart` and `resetGame` (also 301.tsx:278-307) do not clear a pending correction | click a closed throw of turn 2, reset and start a new game, enter 5: the new game's player gets two turns, the second holding the 5 | start and reset end any correction | not executed | PlayData.CorrectionSurvivesNewGame | PlayData.NewGameStartsClean |
