# Ten-pin bowling scoring, modelled and proved in Dafny

This project models the scoring core of a Unity VR bowling game. It proves
that the game's two scorers compute the score the rules of ten-pin bowling
give a game bowled by the rules, under these conditions (see "## Findings"):

- The frame-table scorer gives the rules' score when it is told each throw's
  own pins. Its caller in the repository, `PinManager`, does not report them:
  it reports every pin down since the last full reset.
- The flat-array scorer's lane, `BowlingLane`, does report each throw's own
  pins. The as-written subtraction then miscounts a second throw, so the
  result is proved for the corrected reading, `ProcessLaneThrow`.

The game has four parts that keep score or pin state:

- **The frame-table scorer** (`Assets/Script/BowlingScoreManager.cs`):
  - It keeps ten `FrameData` records (first, second and third throw, strike and spare flags, score).
  - It keeps a `(currentFrame, currentThrow, isGameOver)` state machine that fills those records throw by throw.
  - A scoring pass recomputes every frame's score with the strike and spare look-ahead.
  - Module `FrameTableScorer`, class `ScoreManager`.
- **The flat-throw-array scorer** (`Assets/Scripts/GameManager.cs`):
  - Every throw is written into `throwScores[21]` in order.
  - A throw's pins are derived from the lane's knocked-down count: the count itself on a first throw, the count less the previous throw's on a later one (`Assets/Scripts/GameManager.cs:150-153`).
  - That subtraction takes the count to include the frame's first throw. The repository's `BowlingLane` does not supply such a count: `RemoveKnockedDownPins` takes the fallen pins out of its list before the second throw. The model keeps the code as written and records the discrepancy under "## Findings".
  - The frame boundaries and scores are found by walking the array: one slot for a strike, two otherwise.
  - Modules `ThrowWalk` (the walk as functions) and `ThrowArrayScorer` (class `GameManager` over the two arrays).
- **The pin list of the lane** (`Assets/Scripts/BowlingLane.cs`):
  - It sets up a rack of ten pins and counts the knocked-down ones.
  - It removes them for a second throw and resets pins.
  - Module `PinLane`, class `Lane` over a sequence of `Pin` values.
- **A pin-fall counter** (`Assets/Script/BowlingGameManager.cs`):
  - It scores 10 per fallen pin.
  - It schedules one reset when a rack has fallen.
  - The R key resets the counters at once but leaves a scheduled reset pending. A second rack can then schedule another reset, so two are pending (`ManualResetDoublesPending`; `Assets/Script/BowlingGameManager.cs:79-90`, `105-112`).
  - Module `PinFallCounter`.

Module `BowlingRules` states the reference definition: a completed game as the
rules allow it (`ValidGame`: nine frames and a tenth frame with its bonus
rolls, no throw above the pins standing), the rolls it is bowled as, and its
score. Every "completed game" below is such a game. The main results:

- `FrameTableScorer.TableMatchesRules` and `ThrowWalk.FlatMatchesRules`: each
  scoring pass, over the state a completed game leaves, gives the rules' score.
- `FrameTableScorer.PlayGame`: a completed game, bowled throw by throw into a
  freshly made frame-table scorer, ends with that score, for a caller that
  reports each throw's own pins. The repository's caller, the VR lane's
  `PinManager`, reports every pin down since the last full reset instead. The scorer also
  accepts some tenth frames the rules do not allow (see "## Left out").
- `ThrowArrayPlay.PlayGameFlat`: the same for the flat scorer on a fresh lane.
  Each ball knocks pins down in the `Lane` model, the scorer reads
  `GetKnockedDownPinCount`, and the lane carries out the reset the scorer asks
  for. The flat scorer here reads the count through the corrected
  `ProcessLaneThrow`. With the as-written `ProcessThrowResult` the second
  throw of a frame is miscounted (see "## Findings").
- Both play methods drive the class methods in the order the game calls them,
  running each delayed step as it falls due.
- `ScorerAgreement.ScorersAgree` / `ScorerAgreement.PlayBoth`: the two scorers
  agree on every game bowled by the rules. The frame-table scorer is told each
  throw's own pins, and the flat scorer is read through `ProcessLaneThrow`.

Delayed calls are explicit. The frame-table scorer fires `NextFrame`,
`PrepareSecondThrow`, `ResetPinsForBonus`, `EndGame` and `RestartGame` through
`Invoke(..., delay)`. Here the methods that schedule them return the step as a
`Scheduled` value, and the caller runs that method afterwards. The
flat-array scorer's coroutine body after `WaitForSeconds` is
`ProcessThrowResult`. It takes the lane's knocked-down count and the ball's
gutter flag as parameters. It returns the pin reset it asks of the lane:
`FullReset` for `SetupPins`, `PartialReset` for `RemoveKnockedDownPins`.

The flat-array scorer's per-throw subtraction
(`Assets/Scripts/GameManager.cs:151-153`) is kept as written in
`ProcessThrowResult`, over unbounded integers. It assumes a count that
includes the frame's first throw. The repository's lane does not report one:
after `RemoveKnockedDownPins` the fallen pins are gone from the list, and
`GetKnockedDownPinCount` counts only the pins that fall from then on. A first
throw of 7 and a second of 3 are therefore recorded as 7 and -4, and no spare
is called.

## Model

| member | source | states |
|---|---|---|
| BowlingRules.GameScoreBounds | Assets/Script/BowlingScoreManager.cs:258-305 | a completed valid game scores between 0 and 300 and is bowled in at most 21 rolls |
| BowlingRules.ScoreBounds | Assets/Script/BowlingScoreManager.cs:266-301 | with valid frames every frame is worth at most 30 |
| BowlingRules.TenthSum | Assets/Script/BowlingScoreManager.cs:298-301 | the tenth frame is worth the pins of its two or three rolls |
| BowlingRules.RollsInRange | Assets/Script/BowlingScoreManager.cs:266-301 | every roll of a game bowled by the rules knocks down between 0 and 10 pins, the range the bounds on the scoring pass rest on |
| BowlingRules.StrikesScore | Assets/Script/BowlingScoreManager.cs:268-301 | k strike frames before a three-strike tenth are bowled as k + 3 tens and score 30 (k + 1) |
| BowlingRules.PerfectGameScores300 | Assets/Script/BowlingScoreManager.cs:268-286 | twelve strikes are a valid game of twelve rolls of 10 scoring 300 |
| BowlingRules.GuttersScore | Assets/Script/BowlingScoreManager.cs:292-301 | a game of gutter balls is valid, bowled as zeros and scores 0 |
| FrameTableScorer.FrameScoreBounds | Assets/Script/BowlingScoreManager.cs:266-301 | with every throw between 0 and 10 a frame scores between 0 and 30 |
| FrameTableScorer.ScoreFromBounds | Assets/Script/BowlingScoreManager.cs:262-304 | frames i to 10 together score between 0 and 30 per frame |
| FrameTableScorer.TableTotalBounds | Assets/Script/BowlingScoreManager.cs:258-305 | the total of the scoring pass lies between 0 and 300 |
| FrameTableScorer.ScoreIgnoresScoreFields | Assets/Script/BowlingScoreManager.cs:262-304 | the scoring pass reads only the throws and flags: tables that agree on them get the same frame scores and total |
| FrameTableScorer.RescoreIdempotent | Assets/Script/BowlingScoreManager.cs:260-303 | running the scoring pass twice leaves the same table and total as running it once |
| FrameTableScorer.BlankTableScoresZero | Assets/Script/BowlingScoreManager.cs:58-66 | the ten blank frames score 0 and the scoring pass leaves them as they are |
| FrameTableScorer.LookAhead | Assets/Script/BowlingScoreManager.cs:274-290 | the next two rolls of a game, at every frame, are where the strike and spare bonuses read them in the table |
| FrameTableScorer.TableScoresFrom | Assets/Script/BowlingScoreManager.cs:262-304 | frames j to 10 of a completed game's table score what the rules give those frames |
| FrameTableScorer.TableMatchesRules | Assets/Script/BowlingScoreManager.cs:258-305 | the scoring pass over the table a completed game leaves gives the rules' score of that game |
| FrameTableScorer.PerfectTable | Assets/Script/BowlingScoreManager.cs:258-305 | twelve throws of 10 score 300 |
| FrameTableScorer.ScoreManager.constructor | Assets/Script/BowlingScoreManager.cs:41-67 | a new scorer is in the initial state of a game |
| FrameTableScorer.ScoreManager.InitializeGame | Assets/Script/BowlingScoreManager.cs:52-67 | frame 1, throw 1, total 0, not over, exactly ten all-zero frames |
| FrameTableScorer.ScoreManager.UpdateUI | Assets/Script/BowlingScoreManager.cs:307-313 | with a score text attached the table is rescored and the total recomputed; without one neither changes |
| FrameTableScorer.ScoreManager.CalculateFinalScore | Assets/Script/BowlingScoreManager.cs:258-305 | each frame's score becomes its strike, spare, open or tenth-frame value and the total is the sum of the frame scores |
| FrameTableScorer.ScoreManager.RegisterPinsKnocked | Assets/Script/BowlingScoreManager.cs:70-76 | after the game is over a throw changes nothing and schedules nothing; otherwise it is taken as ProcessThrow takes it |
| FrameTableScorer.ScoreManager.ProcessThrow | Assets/Script/BowlingScoreManager.cs:78-142 | frames 1-9: a first throw of 10 sets the strike flag and leaves the frame to NextFrame; any other first throw moves to throw 2; a second throw sets the spare flag exactly when the frame totals 10 and schedules NextFrame; only the current frame's record changes |
| FrameTableScorer.ScoreManager.ProcessFrame10 | Assets/Script/BowlingScoreManager.cs:144-199 | a third throw is granted exactly after a first-throw strike or a two-throw total of 10, with the spare flag set only without the strike; otherwise EndGame is due after the second throw; the third throw is recorded and EndGame is due |
| FrameTableScorer.ScoreManager.NextFrame | Assets/Script/BowlingScoreManager.cs:201-215 | the frame advances with throw 1; past frame 10 the game ends scored and RestartGame is due; otherwise all pins are reset |
| FrameTableScorer.ScoreManager.PrepareSecondThrow | Assets/Script/BowlingScoreManager.cs:217-222 | only the display refresh happens |
| FrameTableScorer.ScoreManager.ResetPinsForBonus | Assets/Script/BowlingScoreManager.cs:224-228 | all pins are reset and the display refreshed |
| FrameTableScorer.ScoreManager.EndGame | Assets/Script/BowlingScoreManager.cs:240-256 | the game is over, every frame is scored, the game is won exactly when the total reaches 100, and RestartGame is due |
| FrameTableScorer.ScoreManager.RestartGame | Assets/Script/BowlingScoreManager.cs:372-376 | the scorer is back in the initial state and all pins are reset |
| FrameTableScorer.BowlStrike | Assets/Script/BowlingScoreManager.cs:90-103 | a strike in frames 1-9 followed by NextFrame records the strike frame and starts the next frame |
| FrameTableScorer.BowlFirst | Assets/Script/BowlingScoreManager.cs:104-112 | a first throw short of a strike is recorded and the second throw is due |
| FrameTableScorer.BowlSecond | Assets/Script/BowlingScoreManager.cs:114-139 | the second throw is recorded with the spare flag exactly when the frame totals 10, and the next frame starts |
| FrameTableScorer.BowlFrame | Assets/Script/BowlingScoreManager.cs:78-142 | bowling a frame of 1-9 records exactly that frame and advances one frame |
| FrameTableScorer.TenthBonusEarned | Assets/Script/BowlingScoreManager.cs:167-184 | a tenth-frame throw that earns a further throw records it and makes the next throw due |
| FrameTableScorer.TenthLast | Assets/Script/BowlingScoreManager.cs:185-196 | the last throw of the game is recorded and EndGame leaves the game over with the total of the table |
| FrameTableScorer.BowlTenth | Assets/Script/BowlingScoreManager.cs:144-199 | the tenth frame with its bonus throws is recorded and the game ends scored |
| FrameTableScorer.FirstTwoThrows | Assets/Script/BowlingScoreManager.cs:70-139 | a first throw of a and a second reported as r leave frame 1 holding r as its second throw, a spare exactly when a + r is 10, and a score of a + r |
| FrameTableScorer.SecondThrowAsReported | Assets/Script/PinManager.cs:67-95 | as the repository's pin counter reports it, a second throw of b after a arrives as a + b: the frame records a + b, is called a spare exactly when 2a + b is 10, and scores 2a + b |
| FrameTableScorer.SevenThenThreeReported | Assets/Script/BowlingScoreManager.cs:114-139 | as reported, 7 then 3 records a second throw of 10, calls no spare and scores the frame 17 |
| FrameTableScorer.SecondThrowOwnPins | Assets/Script/BowlingScoreManager.cs:114-139 | reported as its own pins, a second throw of b is recorded as b, the spare is called exactly when a + b is 10, and the frame scores a + b |
| FrameTableScorer.PlayGame | Assets/Script/BowlingScoreManager.cs:70-256 | a completed game bowled into a new scorer, each throw reported as its own pins, ends with the rules' score |
| ThrowWalk.Padded | Assets/Scripts/GameManager.cs:98-106 | the throw array after a new game's throws holds those throws and zeros after them |
| ThrowWalk.PaddedAppend | Assets/Scripts/GameManager.cs:156 | recording the next throw in its slot gives the array of the longer throw sequence |
| ThrowWalk.ThrowIndex | Assets/Scripts/GameManager.cs:288-304 | frame f starts at a throw index between f and 2f, and frame 0 at 0 |
| ThrowWalk.ThrowIndexPrefix | Assets/Scripts/GameManager.cs:288-304 | a frame's start index depends only on the throws before it |
| ThrowWalk.FrameAt | Assets/Scripts/GameManager.cs:315-340 | the walk moves one slot past a strike and two past any other frame |
| ThrowWalk.FrameScores | Assets/Scripts/GameManager.cs:306-343 | the walk from frame f scores at most 10 - f frames |
| ThrowWalk.WalkFrame | Assets/Scripts/GameManager.cs:315-340 | the array walk scores an ordinary frame as the rules do and moves past its rolls |
| ThrowWalk.WalkTenth | Assets/Scripts/GameManager.cs:311-343 | the array walk scores the tenth frame as the sum of its rolls |
| ThrowWalk.FlatScoresTenth | Assets/Scripts/GameManager.cs:311-343 | the tenth frame is the last one the walk scores |
| ThrowWalk.FlatStep | Assets/Scripts/GameManager.cs:311-343 | one step of the walk adds the rules' value of the frame at hand |
| ThrowWalk.FlatScoresFrom | Assets/Scripts/GameManager.cs:306-343 | the walk over an array holding the rolls of the remaining frames scores one frame each and totals the rules' score |
| ThrowWalk.FlatMatchesRules | Assets/Scripts/GameManager.cs:306-343 | over a completed game's throws the walk scores exactly ten frames whose sum is the rules' score |
| ThrowWalk.FlatPerfectGame | Assets/Scripts/GameManager.cs:306-343 | twelve throws of 10 score 300 in the flat array |
| ThrowArrayScorer.Announce | Assets/Scripts/GameManager.cs:159-178 | the strike call exactly for a strike, the spare call exactly for a non-strike spare, the gutter call exactly for a gutter ball that is neither |
| ThrowArrayScorer.GameManager.constructor | Assets/Scripts/GameManager.cs:29-35 | a new scorer starts from zeroed arrays and counters |
| ThrowArrayScorer.GameManager.InitializeGame | Assets/Scripts/GameManager.cs:95-130 | all ten frame scores and all 21 throws are zeroed, frame and throw counters, total and game over are reset, and a full pin setup is requested |
| ThrowArrayScorer.GameManager.GetThrowIndexForFrame | Assets/Scripts/GameManager.cs:288-304 | the loop returns the start index of the frame as the walk defines it |
| ThrowArrayScorer.GameManager.CalculateTotalScore | Assets/Scripts/GameManager.cs:306-344 | the frames up to the last throw bowled get the walk's scores, the later ones keep theirs, and the total is the sum of the scores computed |
| ThrowArrayScorer.GameManager.ScoreFrameAt | Assets/Scripts/GameManager.cs:315-340 | strike: 10 plus the next two throws; spare: 10 plus the next throw; otherwise the two throws; every read past slot 20 counts as nothing |
| ThrowArrayScorer.GameManager.GetFrameScore | Assets/Scripts/GameManager.cs:367-374 | the stored frame score, and 0 for any index outside 0..9 |
| ThrowArrayScorer.GameManager.HandleNormalFrame | Assets/Scripts/GameManager.cs:211-232 | the throw counter rises by 1; after a strike or a second throw the frame advances with a full reset, otherwise the next throw is a second one with a partial reset |
| ThrowArrayScorer.GameManager.Handle10thFrame | Assets/Scripts/GameManager.cs:234-286 | the throw counter rises by 1; a first-throw strike asks for a full reset and any other first throw a partial one; a strike or spare on the second grants the third; after a first-throw strike the third stays granted; otherwise the game is over after the second, and always after the third |
| ThrowArrayScorer.GameManager.RecordThrow | Assets/Scripts/GameManager.cs:156-192 | the throw's slot and no other is written, the announcement follows the strike, spare and gutter tests, the frame or tenth-frame rules advance the state, and the frames bowled are rescored |
| ThrowArrayScorer.GameManager.ProcessThrowResult | Assets/Scripts/GameManager.cs:142-209 | as written: the recorded throw is the lane count on a first throw and the count minus the previous throw otherwise; strike and spare are a count of 10 on a first and a later throw; the throw is then recorded; with all 21 slots used the write fails and nothing changes |
| ThrowArrayScorer.GameManager.ProcessLaneThrow | Assets/Scripts/GameManager.cs:150-161 | corrected for the lane's count after a partial reset: the count is recorded as the throw's pins, a strike is 10 on a first throw, a spare a later throw that makes 10 with the previous one; with all 21 slots used nothing changes |
| ThrowArrayPlay.Roll | Assets/Scripts/BowlingLane.cs:147-158 | a ball knocking down k of the standing pins makes the lane report exactly k pins down |
| ThrowArrayPlay.SetUpAfresh | Assets/Scripts/BowlingLane.cs:48-98 | SetupPins leaves ten pins, none knocked down |
| ThrowArrayPlay.RemoveFallenPins | Assets/Scripts/BowlingLane.cs:207-224 | RemoveKnockedDownPins leaves the pins that stood, none knocked down, so the lane counts from 0 again |
| ThrowArrayPlay.ApplyReset | Assets/Scripts/GameManager.cs:211-232 | the reset the scorer asks for is carried out: a fresh rack, the standing pins only, or the lane untouched |
| ThrowArrayPlay.FlatStrike | Assets/Scripts/GameManager.cs:215-222 | through ProcessLaneThrow, a strike in frames 1-9 on a full rack is recorded in one slot, starts the next frame and sets up a fresh rack |
| ThrowArrayPlay.FlatFirst | Assets/Scripts/GameManager.cs:224-231 | through ProcessLaneThrow, a first throw of a < 10 pins is recorded, the frame goes on to its second throw, and 10 - a pins stand |
| ThrowArrayPlay.FlatSecond | Assets/Scripts/GameManager.cs:211-223 | a second throw of b of the pins left, read through ProcessLaneThrow, is recorded as b and starts the next frame on a fresh rack |
| ThrowArrayPlay.TenthEndingThrow | Assets/Scripts/GameManager.cs:275-285 | through ProcessLaneThrow, the throw that ends the game is recorded, the game is over and the frames are scored |
| ThrowArrayPlay.TenthBonusThrow | Assets/Scripts/GameManager.cs:255-274 | through ProcessLaneThrow, a tenth-frame second throw after a strike, or one completing a spare, keeps the frame open for a third throw, on a fresh rack after a strike or spare and on the pins left otherwise |
| ThrowArrayPlay.FlatTenthFirstStrike | Assets/Scripts/GameManager.cs:241-248 | through ProcessLaneThrow, a tenth-frame first-throw strike keeps the frame open, the next throw a first one on a fresh rack |
| ThrowArrayPlay.FlatTenthOpen | Assets/Scripts/GameManager.cs:249-279 | through ProcessLaneThrow, an open tenth frame ends the game after two throws |
| ThrowArrayPlay.FlatTenthSpare | Assets/Scripts/GameManager.cs:255-285 | through ProcessLaneThrow, a tenth-frame spare earns exactly one bonus throw |
| ThrowArrayPlay.FlatTenthStrike | Assets/Scripts/GameManager.cs:241-285 | through ProcessLaneThrow, a tenth-frame strike earns exactly two bonus throws |
| ThrowArrayPlay.FlatTenth | Assets/Scripts/GameManager.cs:234-286 | through ProcessLaneThrow, the tenth frame with its bonus throws fills the array and ends the game scored |
| ThrowArrayPlay.FlatFrame | Assets/Scripts/GameManager.cs:211-232 | through ProcessLaneThrow, a frame of 1-9 records its rolls and advances one frame |
| ThrowArrayPlay.PlayGameFlat | Assets/Scripts/GameManager.cs:142-344 | a game bowled by the rules on a new lane into a new scorer, read through ProcessLaneThrow, ends with the rules' score |
| ThrowArrayPlay.SecondThrowAsWritten | Assets/Scripts/GameManager.cs:150-160 | as written, with the lane's count after RemoveKnockedDownPins: a second throw of b after a first of a is recorded as b - a, and a spare is called only for 0 then 10 |
| ThrowArrayPlay.SevenThenThree | Assets/Scripts/GameManager.cs:150-160 | as written, 7 then 3 records the second throw as -4 and calls no spare |
| ThrowArrayPlay.SecondThrowOnLane | Assets/Scripts/GameManager.cs:150-160 | corrected: the second throw is recorded as its own b pins, and the spare is called exactly when a + b is 10 |
| ScorerAgreement.ScorersAgree | Assets/Scripts/GameManager.cs:306-344 | the array walk and the frame-table pass give the same total for every game bowled by the rules |
| ScorerAgreement.PlayBoth | Assets/Script/BowlingScoreManager.cs:258-305 | a game bowled by the rules into both scorers ends with the same total in each, the frame-table scorer told each throw's own pins and the flat scorer on the lane read through ProcessLaneThrow |
| PinLane.ResetAll | Assets/Scripts/BowlingPin.cs:125-134 | every pin is kept in place, in order, with its knocked flag cleared |
| PinLane.KnockedCountBounds | Assets/Scripts/BowlingLane.cs:147-158 | the knocked-down count lies between 0 and the list length and adds up with the standing pins to the list length |
| PinLane.StandingAppend | Assets/Scripts/BowlingLane.cs:207-224 | standing and knocked-down pins are filtered piecewise, so their order is the list order |
| PinLane.StandingMembers | Assets/Scripts/BowlingLane.cs:207-224 | the standing pins are exactly the list's pins not knocked down, and none of them counts as knocked |
| PinLane.KnockedMembers | Assets/Scripts/BowlingLane.cs:211-217 | the pins collected for removal are exactly the list's knocked-down pins |
| PinLane.NoneKnocked | Assets/Scripts/BowlingLane.cs:219-223 | a list with no knocked-down pin is all standing |
| PinLane.RemoveKnocked | Assets/Scripts/BowlingLane.cs:219-223 | removing the first knocked-down pin by value keeps every standing pin in order and drops just that pin |
| PinLane.AllDownMeansEveryPin | Assets/Scripts/BowlingLane.cs:171-174 | the knocked-down count equals the list length exactly when every pin is knocked down |
| PinLane.KnockOne | Assets/Scripts/BowlingPin.cs:101-112 | a standing pin that falls adds exactly one to the knocked-down count |
| PinLane.AllStanding | Assets/Scripts/BowlingLane.cs:147-158 | a count of 0 means every pin of the list stands |
| PinLane.ResetAllNoneKnocked | Assets/Scripts/BowlingLane.cs:133-142 | after resetting all pins none is knocked down and all stand |
| PinLane.StandingCountAfterRemoval | Assets/Scripts/BowlingLane.cs:163-166 | after the knocked-down pins of a full rack are removed the standing count still reads 10, although only 10 minus the knocked-down pins remain |
| PinLane.RowOfStart | Assets/Scripts/BowlingLane.cs:66-95 | the pin in column c of row r is pin RowStart(r) + c, and row r holds r + 1 pins |
| PinLane.RackStands | Assets/Scripts/BowlingLane.cs:58-95 | every pin of a fresh rack stands and sits in a row of 0..3 at a column up to its row, the rows holding 1, 2, 3 and 4 pins |
| PinLane.Lane.constructor | Assets/Scripts/BowlingLane.cs:25 | a new lane has no pins |
| PinLane.Lane.ClearPins | Assets/Scripts/BowlingLane.cs:103-114 | the pin list is empty |
| PinLane.Lane.SetupPins | Assets/Scripts/BowlingLane.cs:48-98 | with a prefab the list holds pins 1 to 10, standing, in rows of 1, 2, 3 and 4; without one it is empty |
| PinLane.Lane.KnockDown | Assets/Scripts/BowlingPin.cs:101-112 | exactly that pin becomes knocked down |
| PinLane.Lane.ResetStandingPins | Assets/Scripts/BowlingLane.cs:119-128 | only standing pins are reset, so the list and every knocked flag stay as they were |
| PinLane.Lane.ResetAllPins | Assets/Scripts/BowlingLane.cs:133-142 | every knocked flag is cleared with the list's length, order and pins otherwise unchanged |
| PinLane.Lane.GetKnockedDownPinCount | Assets/Scripts/BowlingLane.cs:147-158 | the number of pins in the list that are knocked down, between 0 and the list length |
| PinLane.Lane.GetStandingPinCount | Assets/Scripts/BowlingLane.cs:163-166 | 10 minus the knocked-down count, which is the number of standing pins only when the list holds ten |
| PinLane.Lane.AllPinsDown | Assets/Scripts/BowlingLane.cs:171-174 | true exactly when 10 pins are knocked down, that is every pin of a full rack |
| PinLane.Lane.CollectKnockedDownPins | Assets/Scripts/BowlingLane.cs:209-217 | the knocked-down pins in list order |
| PinLane.Lane.RemoveKnockedDownPins | Assets/Scripts/BowlingLane.cs:207-224 | exactly the standing pins remain, in their original order, so none is knocked down |
| PinFallCounter.BowlingGameManager.constructor | Assets/Script/BowlingGameManager.cs:17-19 | score 0, no pins fallen, no reset pending |
| PinFallCounter.BowlingGameManager.PinFell | Assets/Script/BowlingGameManager.cs:52-65 | one more fallen pin and 10 more points; a reset is scheduled exactly when a rack has fallen and none is pending, after which one is pending |
| PinFallCounter.BowlingGameManager.ResetGame | Assets/Script/BowlingGameManager.cs:99-100 | the fallen count is 0 and no reset is pending; the score is untouched |
| PinFallCounter.BowlingGameManager.ScheduledReset | Assets/Script/BowlingGameManager.cs:75-103 | the scheduled reset runs: counters cleared, score kept, the score stays 10 times the pins fallen |
| PinFallCounter.BowlingGameManager.ManualReset | Assets/Script/BowlingGameManager.cs:105-112 | the R key clears the counters at once while the scheduled reset stays pending |
| PinFallCounter.FallenPins | Assets/Script/BowlingGameManager.cs:52-65 | n pins falling score 10 n and schedule exactly one reset once n reaches 10 |
| PinFallCounter.ManualResetDoublesPending | Assets/Script/BowlingGameManager.cs:105-112 | a manual reset during a pending reset lets a second rack schedule a second reset before the first has run |

## Findings

| source | as written | input that shows it | evidently intended | confidence | as-written member | corrected member |
|---|---|---|---|---|---|---|
| Assets/Scripts/GameManager.cs:150-160 | a later throw's pins are the lane count less the previous throw's, and a spare is a count of 10; after `RemoveKnockedDownPins` (lines 230, 252) the lane counts only the new falls | a first throw of 7 and a second of 3 on a full rack: recorded as 7 and -4, no spare called | the second throw records its own 3 pins and the frame is a spare | not executed; follows from `Assets/Scripts/BowlingLane.cs:207-224` and `:147-158` | ThrowArrayPlay.SecondThrowAsWritten | ThrowArrayScorer.GameManager.ProcessLaneThrow |
| Assets/Script/PinManager.cs:67-95 | `DetectFallenPins` hands `RegisterPinsKnocked` every pin tilted past the threshold since the last `ResetAllPins` (lines 107-127); `PrepareSecondThrow` (`Assets/Script/BowlingScoreManager.cs:217-222`) resets nothing, so a second throw arrives as the frame's running count and is recorded as that throw's pins (lines 114-118) | a first throw of 7 and a second of 3: recorded as 7 and 10, no spare called, the frame scores 17 | the second throw records its own 3 pins, the frame is a spare | not executed; `ThrowBall` starts the detection on every throw (`Assets/Script/VRBowlingThrow.cs:100-103`) | FrameTableScorer.SecondThrowAsReported | FrameTableScorer.SecondThrowOwnPins |

`ThrowArrayPlay.SevenThenThree` is the concrete case of the first row's
as-written member. `ThrowArrayPlay.SecondThrowOnLane` proves the corrected
behaviour for every first and second throw. `ThrowArrayPlay.PlayGameFlat`
proves that a whole game bowled through the corrected method ends with the
rules' score.

`FrameTableScorer.SevenThenThreeReported` is the concrete case of the second
row. The frame-table scorer itself is kept as written; the correction is in
what its caller reports, each throw's own pins. `SecondThrowOwnPins` proves
that reading for every first and second throw, and `FrameTableScorer.PlayGame`
proves that a whole game reported that way ends with the rules' score.

## Left out

- Timing: the `Invoke` delays, the `WaitForSeconds` pauses and the coroutines are not modelled; the delayed calls are explicit steps that the caller runs.
- User interface: score, frame, status and target texts, `frameScoreTexts`, `UpdateScoreDisplay`, `ShowStatus`, `OnFrameResult` and the other events, and `GameState` (`currentState`). Only the score recomputation inside `UpdateUI` is kept.
- Audio: every `PlaySound` call.
- Physics and engine objects: the knock-down angle test, pin positions and rotations as floats, `Instantiate`/`Destroy`, the `PinManager` reset behind `ResetPins`, and the ball reset. A reset of all pins is returned as a flag or a `ResetMode`. A fall is the explicit step `Lane.KnockDown`. A pin's start position is its row and column in the rack.
- Null entries: pins in a lane's list and the lane or ball references of `GameManager` are assumed present. The `pin != null` tests therefore always pass in the model.
- FrameTableScorer.ScoreManager.RegisterPinsKnocked: requires a count between 0 and 10, a count of the rack's ten pins. The source makes no range check. The play methods ask further that a throw knocks down no more pins than stand.
- `ManualRestart` is not modelled separately: it only calls `RestartGame`.
- The pin array found by `FindAllPins` and the per-pin `ResetPin` loop of `BowlingGameManager.ResetGame` are not modelled: they work on engine objects. The counters it clears are modelled.
- Inspector settings are fixed at their defaults: `totalPins` 10, `maxFrames` 10 and `targetScore` 100 in the frame-table scorer, `totalPins` 10 in the pin-fall counter.
- Pin objects are values. `FrameData` and the pins are updated in place in the source, and here the list entry is replaced. No scoring code keeps a second reference to a frame record or to a lane's pin, so updating by value reaches the same state.
- ThrowArrayPlay.PlayGameFlat: proves the rules' score for the corrected `ProcessLaneThrow`. With the as-written `ProcessThrowResult` on the same lane, any frame whose first throw knocks down 1 to 9 pins records its second throw wrongly (see "## Findings"), so no such whole-game result is claimed for it.
- FrameTableScorer.PlayGame: each throw is reported as its own pins. The repository's `PinManager` reports a running count instead (see "## Findings"), so no whole-game result is claimed for the scorer fed by it. `PinManager` itself is not part of this model beyond that count.
- FrameTableScorer.PlayGame: covers the games the rules allow. `ResetPinsForBonus` (`Assets/Script/BowlingScoreManager.cs:182-183`, `224-228`) sets up all pins for the third tenth-frame throw even after a strike and a second throw short of 10. The scorer can therefore take a third throw above the pins the rules leave. Such a tenth frame is outside `ValidGame` and not covered.
- The flat-array scorer does not stop at `gameOver`: a further throw is processed like any other, as in the source. The client methods stop at the end of the game.
