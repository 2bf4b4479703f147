/**
 * The frame-table scorer of Assets/Script/BowlingScoreManager.cs: ten frame
 * records, a (frame, throw, game over) state machine that fills them throw by
 * throw, and a scoring pass that recomputes every frame's score with the
 * strike and spare look-ahead.
 *
 * The source schedules NextFrame, EndGame, PrepareSecondThrow, ResetPinsForBonus
 * and RestartGame with Invoke(..., delay). Here a method returns the step it
 * schedules, as a Scheduled value, and the caller runs that step later by
 * calling the method it names.
 */
module FrameTableScorer {
  import opened BowlingRules

  const TotalPins := 10
  const MaxFrames := 10
  const TargetScore := 100

  /** The per-frame record; thirdThrow is used by the tenth frame only. */
  datatype FrameData = FrameData(
    firstThrow: int, secondThrow: int, thirdThrow: int,
    isStrike: bool, isSpare: bool, score: int)

  const BlankFrame := FrameData(0, 0, 0, false, false, 0)

  /** The table InitializeGame builds: ten blank frames. */
  function BlankTable(): seq<FrameData> {
    seq(MaxFrames, _ => BlankFrame)
  }

  /** The step that a call leaves scheduled for later. */
  datatype Scheduled =
    | NothingScheduled
    | NextFrameDue
    | PrepareSecondThrowDue
    | ResetPinsForBonusDue
    | EndGameDue
    | RestartGameDue

  /** Each throw of the record knocked down between 0 and 10 pins. */
  predicate ThrowInRange(f: FrameData) {
    && 0 <= f.firstThrow <= TotalPins
    && 0 <= f.secondThrow <= TotalPins
    && 0 <= f.thirdThrow <= TotalPins
  }

  predicate ThrowsInRange(t: seq<FrameData>) {
    forall i :: 0 <= i < |t| ==> ThrowInRange(t[i])
  }

  /** A frame record with its score field cleared: what the throws alone determine. */
  function Unscored(f: FrameData): FrameData {
    f.(score := 0)
  }

  /** The throws and flags of a table, with the score fields cleared. */
  function Recorded(t: seq<FrameData>): (r: seq<FrameData>)
    ensures |r| == |t|
  {
    seq(|t|, j requires 0 <= j < |t| => Unscored(t[j]))
  }

  /** The score the scoring pass gives frame i (0-based), from the recorded throws and flags. */
  function FrameScore(t: seq<FrameData>, i: int): int
    requires |t| == MaxFrames && 0 <= i < MaxFrames
  {
    var f := t[i];
    if i < 9 then
      if f.isStrike then
        10 + t[i + 1].firstThrow
           + (if t[i + 1].isStrike && i < 8 then t[i + 2].firstThrow else t[i + 1].secondThrow)
      else if f.isSpare then
        10 + t[i + 1].firstThrow
      else
        f.firstThrow + f.secondThrow
    else
      f.firstThrow + f.secondThrow + f.thirdThrow
  }

  /** The table with every frame's score field recomputed. */
  function Rescored(t: seq<FrameData>): seq<FrameData>
    requires |t| == MaxFrames
  {
    seq(MaxFrames, i requires 0 <= i < MaxFrames => t[i].(score := FrameScore(t, i)))
  }

  /** The sum of the scores of frames i to 9. */
  function ScoreFrom(t: seq<FrameData>, i: int): int
    requires |t| == MaxFrames && 0 <= i <= MaxFrames
    decreases MaxFrames - i
  {
    if i == MaxFrames then 0 else FrameScore(t, i) + ScoreFrom(t, i + 1)
  }

  /** The total the scoring pass computes. */
  function TableTotal(t: seq<FrameData>): int
    requires |t| == MaxFrames
  {
    ScoreFrom(t, 0)
  }

  lemma FrameScoreBounds(t: seq<FrameData>, i: int)
    requires |t| == MaxFrames && 0 <= i < MaxFrames && ThrowsInRange(t)
    ensures 0 <= FrameScore(t, i) <= 30
  {
  }

  /** With every throw between 0 and 10, frames i to 9 score between 0 and 30 each. */
  lemma {:induction false} ScoreFromBounds(t: seq<FrameData>, i: int)
    requires |t| == MaxFrames && 0 <= i <= MaxFrames && ThrowsInRange(t)
    ensures 0 <= ScoreFrom(t, i) <= 30 * (MaxFrames - i)
    decreases MaxFrames - i
  {
    if i < MaxFrames {
      FrameScoreBounds(t, i);
      ScoreFromBounds(t, i + 1);
    }
  }

  lemma TableTotalBounds(t: seq<FrameData>)
    requires |t| == MaxFrames && ThrowsInRange(t)
    ensures 0 <= TableTotal(t) <= 300
  {
    ScoreFromBounds(t, 0);
  }

  /** Two tables that record the same throws and flags score alike, whatever their score fields hold. */
  lemma {:induction false} ScoreIgnoresScoreFields(t: seq<FrameData>, u: seq<FrameData>, i: int)
    requires |t| == MaxFrames && |u| == MaxFrames && 0 <= i <= MaxFrames
    requires Recorded(t) == Recorded(u)
    ensures ScoreFrom(t, i) == ScoreFrom(u, i)
    ensures forall j :: i <= j < MaxFrames ==> FrameScore(t, j) == FrameScore(u, j)
    decreases MaxFrames - i
  {
    if i < MaxFrames {
      ScoreIgnoresScoreFields(t, u, i + 1);
      assert Recorded(t)[i] == Recorded(u)[i];
      if i + 1 < MaxFrames { assert Recorded(t)[i + 1] == Recorded(u)[i + 1]; }
      if i + 2 < MaxFrames { assert Recorded(t)[i + 2] == Recorded(u)[i + 2]; }
    }
  }

  /** Recomputing from scratch is idempotent: a second scoring pass changes nothing. */
  lemma RescoreIdempotent(t: seq<FrameData>)
    requires |t| == MaxFrames
    ensures Rescored(Rescored(t)) == Rescored(t)
    ensures TableTotal(Rescored(t)) == TableTotal(t)
  {
    ScoreIgnoresScoreFields(Rescored(t), t, 0);
  }

  /** A blank table scores 0 and is left as it is by the scoring pass. */
  lemma BlankTableScoresZero()
    ensures ThrowsInRange(BlankTable())
    ensures Rescored(BlankTable()) == BlankTable() && TableTotal(BlankTable()) == 0
  {
  }

  // ----- The table a completed game leaves behind, and its agreement with the rules -----

  function FrameEntry(f: Frame): FrameData {
    match f
    case Strike => FrameData(10, 0, 0, true, false, 0)
    case Spare(a) => FrameData(a, 10 - a, 0, false, true, 0)
    case Open(a, b) => FrameData(a, b, 0, false, false, 0)
  }

  function TenthEntry(t: Tenth): FrameData {
    match t
    case TenthOpen(a, b) => FrameData(a, b, 0, false, false, 0)
    case TenthSpare(a, c) => FrameData(a, 10 - a, c, false, true, 0)
    case TenthStrike(b, c) => FrameData(10, b, c, true, false, 0)
  }

  /** The frame records the scorer holds once game g has been bowled (score fields not yet computed). */
  function TableOf(g: Game): seq<FrameData>
    requires |g.frames| == 9
  {
    seq(MaxFrames, k requires 0 <= k < MaxFrames =>
      if k < 9 then FrameEntry(g.frames[k]) else TenthEntry(g.tenth))
  }

  /** The first two rolls bowled from frame j on, read off the table the way the scoring pass reads them. */
  lemma LookAhead(g: Game, j: int)
    requires ValidGame(g) && 0 <= j <= 9
    ensures var r, t := Rolls(g.frames[j..], g.tenth), TableOf(g);
      && r[0] == t[j].firstThrow
      && r[1] == (if t[j].isStrike && j < 9 then t[j + 1].firstThrow else t[j].secondThrow)
  {
    var t := TableOf(g);
    var fs := g.frames[j..];
    if j < 9 {
      assert fs[0] == g.frames[j] && fs[1..] == g.frames[j + 1..];
      var rest := Rolls(g.frames[j + 1..], g.tenth);
      assert Rolls(fs, g.tenth) == FrameRolls(g.frames[j]) + rest;
      assert t[j] == FrameEntry(g.frames[j]);
      assert |rest| >= 2;
      if j + 1 < 9 {
        assert g.frames[j + 1..][0] == g.frames[j + 1];
        assert rest == FrameRolls(g.frames[j + 1]) + Rolls(g.frames[j + 1..][1..], g.tenth);
        assert t[j + 1] == FrameEntry(g.frames[j + 1]);
      } else {
        assert g.frames[j + 1..] == [];
        assert rest == TenthRolls(g.tenth);
        assert t[j + 1] == TenthEntry(g.tenth);
      }
      assert ValidFrame(g.frames[j]);
    } else {
      assert fs == [];
      assert t[9] == TenthEntry(g.tenth);
    }
  }

  /** Frames j to 9 of the table score what the rules give frames j+1 to 10 of the game. */
  lemma {:induction false} TableScoresFrom(g: Game, j: int)
    requires ValidGame(g) && 0 <= j <= 9
    ensures ScoreFrom(TableOf(g), j) == Score(g.frames[j..], g.tenth)
    decreases 9 - j
  {
    var t := TableOf(g);
    if j == 9 {
      assert g.frames[9..] == [];
      assert t[9] == TenthEntry(g.tenth);
      assert ScoreFrom(t, 9) == FrameScore(t, 9);
      TenthSum(g.tenth);
    } else {
      TableScoresFrom(g, j + 1);
      var fs := g.frames[j..];
      assert fs[0] == g.frames[j] && fs[1..] == g.frames[j + 1..];
      LookAhead(g, j + 1);
      assert ValidFrame(g.frames[j]);
    }
  }

  /** The scoring pass over the table of a completed game gives the score the rules give the game. */
  lemma TableMatchesRules(g: Game)
    requires ValidGame(g)
    ensures TableTotal(TableOf(g)) == GameScore(g)
  {
    TableScoresFrom(g, 0);
    assert g.frames[0..] == g.frames;
  }

  /** Twelve throws of 10 fill the table with strikes, and the scoring pass gives 300. */
  lemma PerfectTable()
    ensures TableTotal(TableOf(PerfectGame())) == 300
  {
    PerfectGameScores300();
    TableMatchesRules(PerfectGame());
  }

  // ----- The state machine -----

  /** One throw in frames 1 to 9: record f0 becomes f1, throw counter n0 becomes n1, and `due` is scheduled. */
  predicate NormalStep(f0: FrameData, n0: int, pins: int, f1: FrameData, n1: int, due: Scheduled) {
    && (n0 == 1 ==>
          && f1 == f0.(firstThrow := pins, isStrike := f0.isStrike || pins == TotalPins)
          && (pins == TotalPins ==> n1 == 1 && due == NextFrameDue)
          && (pins != TotalPins ==> n1 == 2 && due == PrepareSecondThrowDue))
    && (n0 == 2 ==>
          && f1 == f0.(secondThrow := pins, isSpare := f0.isSpare || f0.firstThrow + pins == TotalPins)
          && n1 == 2 && due == NextFrameDue)
    && (n0 != 1 && n0 != 2 ==> f1 == f0 && n1 == n0 && due == NothingScheduled)
  }

  /** One throw in the tenth frame, with its bonus-throw rule. */
  predicate TenthStep(f0: FrameData, n0: int, pins: int, f1: FrameData, n1: int, due: Scheduled) {
    && (n0 == 1 ==>
          && f1 == f0.(firstThrow := pins, isStrike := f0.isStrike || pins == TotalPins)
          && n1 == 2
          && due == (if pins == TotalPins then ResetPinsForBonusDue else PrepareSecondThrowDue))
    && (n0 == 2 ==>
          var sum := f0.firstThrow + pins;
          var bonus := f0.isStrike || sum == TotalPins;
          && f1 == f0.(secondThrow := pins, isSpare := f0.isSpare || (sum == TotalPins && !f0.isStrike))
          && n1 == (if bonus then 3 else 2)
          && due == (if bonus then ResetPinsForBonusDue else EndGameDue))
    && (n0 == 3 ==> f1 == f0.(thirdThrow := pins) && n1 == 3 && due == EndGameDue)
    && (n0 != 1 && n0 != 2 && n0 != 3 ==> f1 == f0 && n1 == n0 && due == NothingScheduled)
  }

  /** `after` differs from `before` at most in frame i. */
  predicate OnlyFrameChanged(before: seq<FrameData>, i: int, after: seq<FrameData>) {
    |after| == |before| && forall j :: 0 <= j < |before| && j != i ==> after[j] == before[j]
  }

  class ScoreManager {
    /** Whether a score text is attached: UpdateUI recomputes the score only then. */
    const showsScore: bool

    var currentFrame: int
    var currentThrow: int
    var totalScore: int
    var frames: seq<FrameData>
    var isGameOver: bool
    var pinsKnockedThisThrow: int

    /** Everything the class keeps, except the link between frame 11 and the end of the game. */
    ghost predicate Consistent()
      reads this
    {
      && |frames| == MaxFrames
      && ThrowsInRange(frames)
      && 1 <= currentFrame
      && 1 <= currentThrow <= 3
      && (currentFrame < MaxFrames ==> currentThrow <= 2)
      && 0 <= totalScore <= 300
    }

    ghost predicate Valid()
      reads this
    {
      Consistent() && (currentFrame > MaxFrames ==> isGameOver)
    }

    /** The state InitializeGame gives: frame 1, throw 1, total 0, not over, ten blank frames. */
    ghost predicate Initial()
      reads this
    {
      && currentFrame == 1 && currentThrow == 1 && totalScore == 0 && !isGameOver
      && frames == BlankTable()
    }

    /** What UpdateUI leaves in the table. */
    function Displayed(t: seq<FrameData>): seq<FrameData>
      requires |t| == MaxFrames
    {
      if showsScore then Rescored(t) else t
    }

    /** The pins standing for the next throw: after a non-strike first throw, those it left. */
    function StandingPins(): int
      reads this
      requires Valid() && currentFrame <= MaxFrames
    {
      var f := frames[currentFrame - 1];
      if currentThrow == 2 && !f.isStrike then TotalPins - f.firstThrow else TotalPins
    }

    /** How a throw of `pins` changes a game that is not over; `table` is the frame table before UpdateUI. */
    twostate predicate ThrowTaken(pins: int, due: Scheduled, table: seq<FrameData>)
      reads this
    {
      && old(|frames|) == MaxFrames && 1 <= old(currentFrame) <= MaxFrames
      && |table| == MaxFrames
      && OnlyFrameChanged(old(frames), old(currentFrame) - 1, table)
      && frames == Displayed(table)
      && totalScore == (if showsScore then TableTotal(table) else old(totalScore))
      && currentFrame == old(currentFrame) && isGameOver == old(isGameOver)
      && (old(currentFrame) < MaxFrames ==>
            NormalStep(old(frames)[old(currentFrame) - 1], old(currentThrow), pins,
                       table[old(currentFrame) - 1], currentThrow, due))
      && (old(currentFrame) == MaxFrames ==>
            TenthStep(old(frames)[MaxFrames - 1], old(currentThrow), pins,
                      table[MaxFrames - 1], currentThrow, due))
    }

    constructor (showsScore: bool)
      ensures Valid() && Initial() && this.showsScore == showsScore
    {
      this.showsScore := showsScore;
      currentFrame, currentThrow, totalScore := 1, 1, 0;
      frames := [];
      isGameOver := false;
      pinsKnockedThisThrow := 0;
      new;
      InitializeGame();
    }

    method InitializeGame()
      modifies this
      ensures Valid() && Initial()
      ensures pinsKnockedThisThrow == old(pinsKnockedThisThrow)
    {
      currentFrame := 1;
      currentThrow := 1;
      totalScore := 0;
      isGameOver := false;
      var table := [];
      for i := 0 to MaxFrames
        invariant |table| == i && forall j :: 0 <= j < i ==> table[j] == BlankFrame
      {
        table := table + [BlankFrame];
      }
      assert table == BlankTable();
      frames := table;
      BlankTableScoresZero();
      UpdateUI();
    }

    /** Recomputes the score when a score text is attached; the display itself is not modelled. */
    method UpdateUI()
      requires |frames| == MaxFrames && ThrowsInRange(frames)
      modifies this`frames, this`totalScore
      ensures frames == Displayed(old(frames))
      ensures totalScore == if showsScore then TableTotal(old(frames)) else old(totalScore)
    {
      if showsScore {
        CalculateFinalScore();
      }
    }

    /** The scoring pass: writes every frame's score and sums them into totalScore. */
    method CalculateFinalScore()
      requires |frames| == MaxFrames
      modifies this`frames, this`totalScore
      ensures frames == Rescored(old(frames))
      ensures totalScore == TableTotal(old(frames))
    {
      ghost var t0 := frames;
      totalScore := 0;
      for i := 0 to MaxFrames
        invariant |frames| == MaxFrames
        invariant forall j :: 0 <= j < i ==> frames[j] == t0[j].(score := FrameScore(t0, j))
        invariant forall j :: i <= j < MaxFrames ==> frames[j] == t0[j]
        invariant totalScore + ScoreFrom(t0, i) == TableTotal(t0)
      {
        var frame := frames[i];
        var score: int;
        if i < 9 {
          if frame.isStrike {
            score := 10;
            var nextFrame := frames[i + 1];
            score := score + nextFrame.firstThrow;
            if nextFrame.isStrike && i < 8 {
              score := score + frames[i + 2].firstThrow;
            } else {
              score := score + nextFrame.secondThrow;
            }
          } else if frame.isSpare {
            score := 10 + frames[i + 1].firstThrow;
          } else {
            score := frame.firstThrow + frame.secondThrow;
          }
        } else {
          score := frame.firstThrow + frame.secondThrow + frame.thirdThrow;
        }
        assert score == FrameScore(t0, i);
        frames := frames[i := frame.(score := score)];
        totalScore := totalScore + score;
      }
    }

    /** Entry point for the pin counter: a throw after the game is over is ignored. */
    method RegisterPinsKnocked(pins: int) returns (due: Scheduled, ghost table: seq<FrameData>)
      requires Valid()
      requires !isGameOver ==> 0 <= pins <= TotalPins
      modifies this
      ensures Valid()
      ensures old(isGameOver) ==> due == NothingScheduled && unchanged(this)
      ensures !old(isGameOver) ==> ThrowTaken(pins, due, table) && pinsKnockedThisThrow == pins
    {
      table := frames;
      if isGameOver {
        due := NothingScheduled;
        return;
      }
      pinsKnockedThisThrow := pins;
      due, table := ProcessThrow(pins);
    }

    /** A throw in frames 1 to 9; the tenth frame is handed to ProcessFrame10. */
    method ProcessThrow(pins: int) returns (due: Scheduled, ghost table: seq<FrameData>)
      requires Valid() && !isGameOver && 0 <= pins <= TotalPins
      modifies this
      ensures Valid()
      ensures ThrowTaken(pins, due, table)
      ensures pinsKnockedThisThrow == old(pinsKnockedThisThrow)
    {
      var i := currentFrame - 1;
      var currentFrameData := frames[i];

      if currentFrame == MaxFrames {
        due, table := ProcessFrame10(pins);
        return;
      }

      due := NothingScheduled;
      if currentThrow == 1 {
        currentFrameData := currentFrameData.(firstThrow := pins);
        if pins == TotalPins {
          currentFrameData := currentFrameData.(isStrike := true);
          due := NextFrameDue;
        } else {
          currentThrow := 2;
          due := PrepareSecondThrowDue;
        }
      } else if currentThrow == 2 {
        currentFrameData := currentFrameData.(secondThrow := pins);
        var totalThisFrame := currentFrameData.firstThrow + currentFrameData.secondThrow;
        if totalThisFrame == TotalPins {
          currentFrameData := currentFrameData.(isSpare := true);
        }
        due := NextFrameDue;
      }
      frames := frames[i := currentFrameData];
      table := frames;
      UpdateUI();
      if showsScore { TableTotalBounds(table); }
    }

    /** A throw in the tenth frame: a strike or a spare earns the third throw. */
    method ProcessFrame10(pins: int) returns (due: Scheduled, ghost table: seq<FrameData>)
      requires Valid() && !isGameOver && currentFrame == MaxFrames && 0 <= pins <= TotalPins
      modifies this
      ensures Valid()
      ensures ThrowTaken(pins, due, table)
      ensures pinsKnockedThisThrow == old(pinsKnockedThisThrow)
    {
      var frame10 := frames[9];
      due := NothingScheduled;
      if currentThrow == 1 {
        frame10 := frame10.(firstThrow := pins);
        if pins == TotalPins {
          frame10 := frame10.(isStrike := true);
          currentThrow := 2;
          due := ResetPinsForBonusDue;
        } else {
          currentThrow := 2;
          due := PrepareSecondThrowDue;
        }
      } else if currentThrow == 2 {
        frame10 := frame10.(secondThrow := pins);
        var total := frame10.firstThrow + frame10.secondThrow;
        if frame10.isStrike || total == TotalPins {
          if total == TotalPins && !frame10.isStrike {
            frame10 := frame10.(isSpare := true);
          }
          currentThrow := 3;
          due := ResetPinsForBonusDue;
        } else {
          due := EndGameDue;
        }
      } else if currentThrow == 3 {
        frame10 := frame10.(thirdThrow := pins);
        due := EndGameDue;
      }
      assert TenthStep(old(frames[9]), old(currentThrow), pins, frame10, currentThrow, due);
      assert ThrowInRange(frame10);
      frames := frames[9 := frame10];
      assert ThrowsInRange(frames);
      table := frames;
      UpdateUI();
      if showsScore { TableTotalBounds(table); }
    }

    /** Moves to the next frame; past frame 10 the game ends, otherwise all pins are reset. */
    method NextFrame() returns (due: Scheduled, resetPins: bool)
      requires Valid()
      modifies this
      ensures Valid()
      ensures currentFrame == old(currentFrame) + 1 && currentThrow == 1
      ensures pinsKnockedThisThrow == old(pinsKnockedThisThrow)
      ensures currentFrame > MaxFrames ==>
        && isGameOver && frames == Rescored(old(frames)) && totalScore == TableTotal(old(frames))
        && due == RestartGameDue && !resetPins
      ensures currentFrame <= MaxFrames ==>
        && isGameOver == old(isGameOver) && frames == Displayed(old(frames))
        && totalScore == (if showsScore then TableTotal(old(frames)) else old(totalScore))
        && due == NothingScheduled && resetPins
    {
      currentFrame := currentFrame + 1;
      currentThrow := 1;
      if currentFrame > MaxFrames {
        var won;
        due, won := EndGame();
        resetPins := false;
      } else {
        resetPins := true;
        due := NothingScheduled;
        UpdateUI();
        if showsScore { TableTotalBounds(old(frames)); }
      }
    }

    /** Runs when the second throw of a frame is due; only the display is refreshed. */
    method PrepareSecondThrow()
      requires Valid()
      modifies this`frames, this`totalScore
      ensures Valid()
      ensures frames == Displayed(old(frames))
      ensures totalScore == if showsScore then TableTotal(old(frames)) else old(totalScore)
    {
      UpdateUI();
      if showsScore { TableTotalBounds(old(frames)); }
    }

    /** Runs before a tenth-frame bonus throw: all pins are reset (resetPins) and the display refreshed. */
    method ResetPinsForBonus() returns (resetPins: bool)
      requires Valid()
      modifies this`frames, this`totalScore
      ensures Valid() && resetPins
      ensures frames == Displayed(old(frames))
      ensures totalScore == if showsScore then TableTotal(old(frames)) else old(totalScore)
    {
      resetPins := true;
      UpdateUI();
      if showsScore { TableTotalBounds(old(frames)); }
    }

    /** Ends the game, scores it and schedules the restart; `won` tells whether the target was reached. */
    method EndGame() returns (due: Scheduled, won: bool)
      requires Consistent()
      modifies this
      ensures Valid() && isGameOver
      ensures frames == Rescored(old(frames)) && totalScore == TableTotal(old(frames))
      ensures currentFrame == old(currentFrame) && currentThrow == old(currentThrow)
      ensures pinsKnockedThisThrow == old(pinsKnockedThisThrow)
      ensures due == RestartGameDue && won == (totalScore >= TargetScore)
    {
      isGameOver := true;
      CalculateFinalScore();
      TableTotalBounds(old(frames));
      won := totalScore >= TargetScore;
      due := RestartGameDue;
    }

    /** Starts a new game and resets all pins (resetPins). */
    method RestartGame() returns (resetPins: bool)
      modifies this
      ensures Valid() && Initial() && resetPins
      ensures pinsKnockedThisThrow == old(pinsKnockedThisThrow)
    {
      InitializeGame();
      resetPins := true;
    }
  }

  /** The state a client starts frame k+1 in (0 <= k < 10): the first throw of that frame is due. */
  ghost predicate FrameDue(m: ScoreManager, k: int)
    reads m
  {
    && m.Valid() && !m.isGameOver && m.currentFrame == k + 1 && m.currentThrow == 1
    && Unscored(m.frames[k]) == BlankFrame
  }

  /** The state in which throw n of frame k+1 is due, with record f of that frame so far. */
  ghost predicate ThrowDue(m: ScoreManager, k: int, n: int, f: FrameData)
    reads m
  {
    && m.Valid() && !m.isGameOver && m.currentFrame == k + 1 && m.currentThrow == n
    && Unscored(m.frames[k]) == f
  }

  /** A strike in frame k+1 (one of frames 1 to 9), then NextFrame. */
  method BowlStrike(m: ScoreManager, ghost k: int)
    requires 0 <= k < 9 && FrameDue(m, k)
    modifies m
    ensures m.Valid() && !m.isGameOver && m.currentFrame == k + 2 && m.currentThrow == 1
    ensures Recorded(m.frames) == Recorded(old(m.frames))[k := FrameEntry(Strike)]
  {
    var due, table := m.RegisterPinsKnocked(10);
    assert due == NextFrameDue;
    assert Recorded(m.frames) == Recorded(old(m.frames))[k := FrameEntry(Strike)];
    var resetPins;
    ghost var before := m.frames;
    due, resetPins := m.NextFrame();
    assert Recorded(m.frames) == Recorded(before);
  }

  /** A first throw of a pins short of a strike in frame k+1, then PrepareSecondThrow. */
  method BowlFirst(m: ScoreManager, ghost k: int, a: int)
    requires 0 <= k < 10 && FrameDue(m, k) && 0 <= a < 10
    modifies m
    ensures ThrowDue(m, k, 2, FrameData(a, 0, 0, false, false, 0))
    ensures Recorded(m.frames) == Recorded(old(m.frames))[k := FrameData(a, 0, 0, false, false, 0)]
  {
    var due, table := m.RegisterPinsKnocked(a);
    assert due == PrepareSecondThrowDue;
    ghost var first := m.frames;
    assert Recorded(first) == Recorded(old(m.frames))[k := FrameData(a, 0, 0, false, false, 0)];
    m.PrepareSecondThrow();
    assert Recorded(m.frames) == Recorded(first);
  }

  /** The second throw, of b pins, in frame k+1 (one of frames 1 to 9), then NextFrame. */
  method BowlSecond(m: ScoreManager, ghost k: int, a: int, b: int)
    requires 0 <= k < 9 && ThrowDue(m, k, 2, FrameData(a, 0, 0, false, false, 0))
    requires 0 <= a < 10 && 0 <= b <= 10 - a
    modifies m
    ensures m.Valid() && !m.isGameOver && m.currentFrame == k + 2 && m.currentThrow == 1
    ensures Recorded(m.frames) ==
      Recorded(old(m.frames))[k := FrameData(a, b, 0, false, a + b == 10, 0)]
  {
    var due, table := m.RegisterPinsKnocked(b);
    assert due == NextFrameDue;
    assert Recorded(m.frames) ==
      Recorded(old(m.frames))[k := FrameData(a, b, 0, false, a + b == 10, 0)];
    var resetPins;
    ghost var before := m.frames;
    due, resetPins := m.NextFrame();
    assert Recorded(m.frames) == Recorded(before);
  }

  /**
   * The first frame's two throws into a new scorer with a score text: a
   * first throw of a, then a second reported as `reported` pins. Returns the
   * frame-1 record UpdateUI leaves.
   */
  method FirstTwoThrows(a: int, reported: int) returns (second: int, spare: bool, score: int)
    requires 0 <= a < 10 && 0 <= reported <= TotalPins
    ensures second == reported
    ensures spare <==> a + reported == TotalPins
    ensures score == a + reported
  {
    var m := new ScoreManager(true);
    assert Recorded(m.frames)[1] == BlankFrame;
    BowlFirst(m, 0, a);
    assert Unscored(m.frames[1]) == Recorded(m.frames)[1] == BlankFrame;
    var due, table := m.RegisterPinsKnocked(reported);
    second, spare, score := m.frames[0].secondThrow, m.frames[0].isSpare, m.frames[0].score;
  }

  /**
   * The second throw as the lane's PinManager reports it: its count is every
   * pin down since the last full reset, and PrepareSecondThrow resets none,
   * so a second throw of b after a first of a arrives as a + b.
   */
  method SecondThrowAsReported(a: int, b: int) returns (second: int, spare: bool, score: int)
    requires 0 <= a < 10 && 0 <= b <= 10 - a
    ensures second == a + b
    ensures spare <==> 2 * a + b == 10
    ensures score == 2 * a + b
  {
    second, spare, score := FirstTwoThrows(a, a + b);
  }

  /** Seven then three, as reported: the second throw reads 10, no spare, and the frame scores 17. */
  method SevenThenThreeReported() returns (second: int, spare: bool, score: int)
    ensures second == 10 && !spare && score == 17
  {
    second, spare, score := SecondThrowAsReported(7, 3);
  }

  /** The second throw reported as its own b pins: the spare is called exactly when the frame's pins make 10. */
  method SecondThrowOwnPins(a: int, b: int) returns (second: int, spare: bool, score: int)
    requires 0 <= a < 10 && 0 <= b <= 10 - a
    ensures second == b
    ensures spare <==> a + b == 10
    ensures score == a + b
  {
    second, spare, score := FirstTwoThrows(a, b);
  }

  /** Bowls frame k+1 (one of frames 1 to 9) and runs the steps it schedules, ending with NextFrame. */
  method BowlFrame(m: ScoreManager, f: Frame, ghost k: int)
    requires 0 <= k < 9 && FrameDue(m, k) && ValidFrame(f)
    modifies m
    ensures m.Valid() && !m.isGameOver && m.currentFrame == k + 2 && m.currentThrow == 1
    ensures Recorded(m.frames) == Recorded(old(m.frames))[k := FrameEntry(f)]
  {
    match f {
      case Strike =>
        BowlStrike(m, k);
      case Spare(a) =>
        BowlFirst(m, k, a);
        BowlSecond(m, k, a, 10 - a);
      case Open(a, b) =>
        BowlFirst(m, k, a);
        BowlSecond(m, k, a, b);
    }
  }

  /** A throw in the tenth frame that earns a further throw, then ResetPinsForBonus. */
  method TenthBonusEarned(m: ScoreManager, n: int, f: FrameData, pins: int, f1: FrameData)
    requires ThrowDue(m, 9, n, f) && (n == 1 || n == 2) && 0 <= pins <= m.StandingPins()
    requires n == 1 ==> pins == 10 && f1 == f.(firstThrow := 10, isStrike := true)
    requires n == 2 ==> f.isStrike || f.firstThrow + pins == 10
    requires n == 2 ==>
      f1 == f.(secondThrow := pins, isSpare := f.isSpare || (f.firstThrow + pins == 10 && !f.isStrike))
    modifies m
    ensures ThrowDue(m, 9, n + 1, f1)
    ensures Recorded(m.frames) == Recorded(old(m.frames))[9 := f1]
  {
    var due, table := m.RegisterPinsKnocked(pins);
    assert due == ResetPinsForBonusDue;
    ghost var first := m.frames;
    assert Recorded(first) == Recorded(old(m.frames))[9 := f1];
    var resetPins := m.ResetPinsForBonus();
    assert Recorded(m.frames) == Recorded(first);
  }

  /** The last throw of the game, in the tenth frame, then EndGame. */
  method TenthLast(m: ScoreManager, n: int, f: FrameData, pins: int, f1: FrameData)
    requires ThrowDue(m, 9, n, f) && (n == 2 || n == 3) && 0 <= pins <= m.StandingPins()
    requires n == 2 ==> !f.isStrike && f.firstThrow + pins < 10 && f1 == f.(secondThrow := pins)
    requires n == 3 ==> f1 == f.(thirdThrow := pins)
    modifies m
    ensures m.Valid() && m.isGameOver && m.totalScore == TableTotal(m.frames)
    ensures Recorded(m.frames) == Recorded(old(m.frames))[9 := f1]
  {
    var due, table := m.RegisterPinsKnocked(pins);
    assert due == EndGameDue;
    ghost var last := m.frames;
    assert Recorded(last) == Recorded(old(m.frames))[9 := f1];
    var won;
    due, won := m.EndGame();
    RescoreIdempotent(last);
    ScoreIgnoresScoreFields(m.frames, last, 0);
  }

  /** Bowls the tenth frame, bonus throws included, and runs the steps it schedules, ending with EndGame. */
  method BowlTenth(m: ScoreManager, t: Tenth)
    requires FrameDue(m, 9) && ValidTenth(t)
    modifies m
    ensures m.Valid() && m.isGameOver && m.totalScore == TableTotal(m.frames)
    ensures Recorded(m.frames) == Recorded(old(m.frames))[9 := TenthEntry(t)]
  {
    match t {
      case TenthOpen(a, b) =>
        BowlFirst(m, 9, a);
        TenthLast(m, 2, FrameData(a, 0, 0, false, false, 0), b, TenthEntry(t));
      case TenthSpare(a, c) =>
        BowlFirst(m, 9, a);
        TenthBonusEarned(m, 2, FrameData(a, 0, 0, false, false, 0), 10 - a,
                         FrameData(a, 10 - a, 0, false, true, 0));
        TenthLast(m, 3, FrameData(a, 10 - a, 0, false, true, 0), c, TenthEntry(t));
      case TenthStrike(b, c) =>
        TenthBonusEarned(m, 1, BlankFrame, 10, FrameData(10, 0, 0, true, false, 0));
        TenthBonusEarned(m, 2, FrameData(10, 0, 0, true, false, 0), b,
                         FrameData(10, b, 0, true, false, 0));
        TenthLast(m, 3, FrameData(10, b, 0, true, false, 0), c, TenthEntry(t));
    }
  }

  /**
   * Bowls a completed game into a new scorer, running each scheduled step
   * as it falls due, and returns the total the scorer ends the game with.
   */
  method PlayGame(g: Game, showsScore: bool) returns (total: int)
    requires ValidGame(g)
    ensures total == GameScore(g)
  {
    var m := new ScoreManager(showsScore);
    ghost var expected := TableOf(g);
    for k := 0 to 9
      invariant m.Valid() && !m.isGameOver && m.currentFrame == k + 1 && m.currentThrow == 1
      invariant forall j :: 0 <= j < MaxFrames ==>
        Recorded(m.frames)[j] == (if j < k then expected[j] else BlankFrame)
    {
      assert ValidFrame(g.frames[k]);
      assert Recorded(m.frames)[k] == BlankFrame;
      BowlFrame(m, g.frames[k], k);
    }
    assert Recorded(m.frames)[9] == BlankFrame;
    BowlTenth(m, g.tenth);
    assert Recorded(m.frames) == Recorded(expected);
    ScoreIgnoresScoreFields(m.frames, expected, 0);
    TableMatchesRules(g);
    total := m.totalScore;
  }
}
