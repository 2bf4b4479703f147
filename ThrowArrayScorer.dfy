/**
 * The flat-throw-array scorer of Assets/Scripts/GameManager.cs: every throw is
 * written into throwScores[21] in order, and the frame scores are found by
 * walking that array: one throw per strike, two otherwise.
 *
 * The lane and the ball are outside this class. A throw arrives as the lane's
 * knocked-down count and the ball's gutter flag, and the pin reset the class
 * asks for is returned as a ResetMode. ProcessThrowResult reads the count as
 * written, as if it included the frame's earlier throws; ProcessLaneThrow
 * reads it as the lane reports it after a partial reset, new falls only.
 */
module ThrowArrayScorer {
  import opened BowlingRules
  import opened ThrowWalk

  /** The pin reset requested of the lane: SetupPins, RemoveKnockedDownPins, or none. */
  datatype ResetMode = FullReset | PartialReset | NoReset

  /** The announcement a throw triggers (sound and OnFrameResult). */
  datatype Announcement = StrikeCall | SpareCall | GutterCall | NoCall

  /** What ProcessThrowResult does with a throw. */
  datatype ThrowOutcome =
    | IndexOutOfRange
    | Processed(recorded: int, call: Announcement, reset: ResetMode, over: bool)

  // ----- The state machine -----

  function Announce(isStrike: bool, isSpare: bool, isGutterBall: bool): (a: Announcement)
    ensures a == StrikeCall <==> isStrike
    ensures a == SpareCall <==> !isStrike && isSpare
    ensures a == GutterCall <==> !isStrike && !isSpare && isGutterBall
  {
    if isStrike then StrikeCall
    else if isSpare then SpareCall
    else if isGutterBall then GutterCall
    else NoCall
  }

  /** HandleNormalFrame: a strike or a second throw completes the frame; a first throw leaves pins standing. */
  predicate NormalAdvance(isStrike: bool, first0: bool, frame0: int, frame1: int, first1: bool, reset: ResetMode) {
    && (isStrike || !first0 ==> frame1 == frame0 + 1 && first1 && reset == FullReset)
    && (!isStrike && first0 ==> frame1 == frame0 && !first1 && reset == PartialReset)
  }

  /**
   * Handle10thFrame, where n is the number of throws bowled in the tenth frame
   * and firstWasStrike whether the frame's first throw (read when n == 2) was 10.
   */
  predicate TenthAdvance(n: int, isStrike: bool, isSpare: bool, firstWasStrike: bool,
                         first0: bool, first1: bool, over0: bool, over1: bool, reset: ResetMode) {
    && (n == 1 ==>
          && over1 == over0
          && (if isStrike then first1 && reset == FullReset else !first1 && reset == PartialReset))
    && (n == 2 ==>
          if isStrike || isSpare then first1 && reset == FullReset && over1 == over0
          else if firstWasStrike then !first1 && reset == PartialReset && over1 == over0
          else first1 == first0 && reset == NoReset && over1)
    && (n != 1 && n != 2 ==> first1 == first0 && reset == NoReset && over1)
  }

  class GameManager {
    const frameScores: array<int>
    const throwScores: array<int>
    var currentFrame: int
    var currentThrow: int
    var totalScore: int
    var isFirstThrowInFrame: bool
    var gameOver: bool

    ghost predicate Valid()
      reads this
    {
      && frameScores.Length == 10 && throwScores.Length == 21 && frameScores != throwScores
      && 0 <= currentFrame <= 9
      && 0 <= currentThrow <= 21
      && (!isFirstThrowInFrame ==> currentThrow >= 1)
    }

    ghost predicate Initial()
      reads this, frameScores, throwScores
    {
      && frameScores[..] == Repeat(0, 10) && throwScores[..] == Repeat(0, 21)
      && currentFrame == 0 && currentThrow == 0 && totalScore == 0
      && isFirstThrowInFrame && !gameOver
    }

    /** What CalculateTotalScore leaves, relative to the frame scores before it. */
    twostate predicate Scored()
      reads this, frameScores, throwScores
    {
      && frameScores.Length == 10 && throwScores.Length == 21 && 0 <= currentThrow
      && var s := FrameScores(throwScores[..], currentThrow + 1, 0, 0);
      && frameScores[..|s|] == s
      && frameScores[|s|..] == old(frameScores[..])[|s|..]
      && totalScore == Sum(s)
    }

    constructor ()
      ensures Valid() && Initial()
      ensures fresh(frameScores) && fresh(throwScores)
    {
      frameScores := new int[10];
      throwScores := new int[21];
      currentFrame, currentThrow, totalScore := 0, 0, 0;
      isFirstThrowInFrame, gameOver := true, false;
      new;
      var reset := InitializeGame();
    }

    /** Zeroes both arrays, resets the counters and asks for a full set of pins. */
    method InitializeGame() returns (reset: ResetMode)
      requires frameScores.Length == 10 && throwScores.Length == 21 && frameScores != throwScores
      modifies this, frameScores, throwScores
      ensures Valid() && Initial() && reset == FullReset
    {
      for i := 0 to frameScores.Length
        invariant forall j :: 0 <= j < i ==> frameScores[j] == 0
      {
        frameScores[i] := 0;
      }
      for i := 0 to throwScores.Length
        invariant forall j :: 0 <= j < i ==> throwScores[j] == 0
        invariant frameScores[..] == Repeat(0, 10)
      {
        throwScores[i] := 0;
      }
      currentFrame := 0;
      currentThrow := 0;
      totalScore := 0;
      isFirstThrowInFrame := true;
      gameOver := false;
      reset := FullReset;
    }

    /** The index of the first throw of a frame, as ThrowIndex defines it. */
    method GetThrowIndexForFrame(frame: int) returns (index: int)
      requires throwScores.Length == 21 && frame <= 10
      ensures index == ThrowIndex(throwScores[..], frame)
    {
      index := 0;
      var f := 0;
      while f < frame
        invariant 0 <= f <= (if frame > 0 then frame else 0)
        invariant index == ThrowIndex(throwScores[..], f)
      {
        if throwScores[index] == 10 && f < 9 {
          index := index + 1;
        } else {
          index := index + 2;
        }
        f := f + 1;
      }
    }

    /** Rescores the frames up to the last throw bowled and sums them into totalScore. */
    method CalculateTotalScore()
      requires Valid()
      modifies frameScores, this`totalScore
      ensures Scored()
    {
      ghost var t := throwScores[..];
      ghost var limit := currentThrow + 1;
      ghost var scores := FrameScores(t, limit, 0, 0);
      totalScore := 0;
      var throwIndex := 0;
      var frame := 0;
      while frame < 10
        invariant 0 <= frame <= |scores| && 0 <= throwIndex <= 2 * frame
        invariant FrameScores(t, limit, frame, throwIndex) == scores[frame..]
        invariant forall j :: 0 <= j < frame ==> frameScores[j] == scores[j]
        invariant forall j :: frame <= j < 10 ==> frameScores[j] == old(frameScores[j])
        invariant totalScore == Sum(scores[..frame])
        invariant throwScores[..] == t
        invariant limit == currentThrow + 1
      {
        if throwIndex >= currentThrow + 1 {
          break;
        }
        ghost var startIndex := throwIndex;
        var score;
        score, throwIndex := ScoreFrameAt(throwIndex);
        assert (score, throwIndex) == FrameAt(t, startIndex);
        ghost var rest := FrameScores(t, limit, frame + 1, throwIndex);
        assert scores[frame..] == [score] + rest;
        assert scores[frame] == score && scores[frame + 1..] == rest by {
          assert scores[frame + 1..] == scores[frame..][1..];
        }
        frameScores[frame] := score;
        assert scores[..frame + 1] == scores[..frame] + [score];
        SumAppend(scores[..frame], score);
        totalScore := totalScore + score;
        frame := frame + 1;
      }
      assert frame == |scores| && scores[..frame] == scores;
      assert frameScores[..frame] == scores;
      assert frameScores[frame..] == old(frameScores[..])[frame..];
    }

    /** The score of the frame whose first throw is at throwIndex, with its strike or spare bonus, and the next frame's index. */
    method ScoreFrameAt(throwIndex: int) returns (score: int, nextIndex: int)
      requires throwScores.Length == 21 && 0 <= throwIndex < 21
      ensures (score, nextIndex) == FrameAt(throwScores[..], throwIndex)
    {
      if throwScores[throwIndex] == 10 {
        score := 10;
        if throwIndex + 1 < 21 { score := score + throwScores[throwIndex + 1]; }
        if throwIndex + 2 < 21 { score := score + throwScores[throwIndex + 2]; }
        nextIndex := throwIndex + 1;
      } else if throwIndex + 1 < 21 && throwScores[throwIndex] + throwScores[throwIndex + 1] == 10 {
        score := 10;
        if throwIndex + 2 < 21 { score := score + throwScores[throwIndex + 2]; }
        nextIndex := throwIndex + 2;
      } else {
        score := throwScores[throwIndex];
        if throwIndex + 1 < 21 { score := score + throwScores[throwIndex + 1]; }
        nextIndex := throwIndex + 2;
      }
    }

    /** The stored score of a frame, and 0 for an index outside 0..9. */
    method GetFrameScore(frame: int) returns (score: int)
      requires Valid()
      ensures 0 <= frame < 10 ==> score == frameScores[frame]
      ensures !(0 <= frame < 10) ==> score == 0
    {
      if frame >= 0 && frame < 10 {
        return frameScores[frame];
      }
      return 0;
    }

    /** Advances past a throw in frames 1 to 9. */
    method HandleNormalFrame(isStrike: bool) returns (reset: ResetMode)
      requires Valid() && currentFrame < 9 && currentThrow < 21
      modifies this
      ensures Valid()
      ensures currentThrow == old(currentThrow) + 1 && gameOver == old(gameOver)
      ensures totalScore == old(totalScore)
      ensures NormalAdvance(isStrike, old(isFirstThrowInFrame), old(currentFrame), currentFrame,
                            isFirstThrowInFrame, reset)
    {
      currentThrow := currentThrow + 1;
      if isStrike || !isFirstThrowInFrame {
        currentFrame := currentFrame + 1;
        isFirstThrowInFrame := true;
        reset := FullReset;
      } else {
        isFirstThrowInFrame := false;
        reset := PartialReset;
      }
    }

    /** Advances past a throw in the tenth frame, granting the bonus throws. */
    method Handle10thFrame(isStrike: bool, isSpare: bool) returns (reset: ResetMode)
      requires Valid() && currentFrame == 9 && currentThrow < 21
      modifies this
      ensures Valid() && currentFrame == 9
      ensures currentThrow == old(currentThrow) + 1 && totalScore == old(totalScore)
      ensures var n := currentThrow - ThrowIndex(throwScores[..], 9);
        TenthAdvance(n, isStrike, isSpare, n == 2 && throwScores[currentThrow - 2] == 10,
                     old(isFirstThrowInFrame), isFirstThrowInFrame, old(gameOver), gameOver, reset)
    {
      currentThrow := currentThrow + 1;
      var start := GetThrowIndexForFrame(9);
      var throwsIn10th := currentThrow - start;
      reset := NoReset;
      if throwsIn10th == 1 {
        if isStrike {
          isFirstThrowInFrame := true;
          reset := FullReset;
        } else {
          isFirstThrowInFrame := false;
          reset := PartialReset;
        }
      } else if throwsIn10th == 2 {
        if isStrike || isSpare {
          isFirstThrowInFrame := true;
          reset := FullReset;
        } else if throwScores[currentThrow - 2] == 10 {
          if isStrike {
            reset := FullReset;
          } else {
            reset := PartialReset;
            isFirstThrowInFrame := false;
          }
        } else {
          gameOver := true;
        }
      } else {
        gameOver := true;
      }
    }

    /** How recording `recorded` pins, classified as given, changes a game whose throw array still has room. */
    twostate predicate ThrowRecorded(recorded: int, isStrike: bool, isSpare: bool, inGutter: bool,
                                     outcome: ThrowOutcome)
      reads this, frameScores, throwScores
    {
      && old(Valid()) && Valid() && old(currentThrow) < 21
      && var ct := old(currentThrow);
      && var first := old(isFirstThrowInFrame);
      && outcome.Processed?
      && outcome.recorded == recorded
      && outcome.call == Announce(isStrike, isSpare, inGutter && recorded == 0)
      && outcome.over == gameOver
      && throwScores[..] == old(throwScores[..])[ct := recorded]
      && currentThrow == ct + 1
      && (old(currentFrame) < 9 ==>
            && gameOver == old(gameOver)
            && NormalAdvance(isStrike, first, old(currentFrame), currentFrame, isFirstThrowInFrame, outcome.reset))
      && (old(currentFrame) == 9 ==>
            && currentFrame == 9
            && var n := currentThrow - ThrowIndex(throwScores[..], 9);
            && TenthAdvance(n, isStrike, isSpare, n == 2 && throwScores[currentThrow - 2] == 10,
                            first, isFirstThrowInFrame, old(gameOver), gameOver, outcome.reset))
      && Scored()
    }

    /**
     * How a throw with lane count `count` changes the game, as written: after
     * the first throw of a frame the count is taken to include that throw's pins.
     */
    twostate predicate ThrowProcessed(count: int, inGutter: bool, outcome: ThrowOutcome)
      reads this, frameScores, throwScores
    {
      && old(Valid()) && old(currentThrow) < 21
      && var ct := old(currentThrow);
      && var first := old(isFirstThrowInFrame);
      && var recorded := if first then count else count - old(throwScores[ct - 1]);
      && ThrowRecorded(recorded, first && count == 10, !first && count == 10, inGutter, outcome)
    }

    /**
     * How a throw changes the game when the count is the lane's after its
     * last reset: the pins of this throw alone, and a spare when they and
     * the frame's first throw make 10.
     */
    twostate predicate LaneThrowProcessed(pinsDown: int, inGutter: bool, outcome: ThrowOutcome)
      reads this, frameScores, throwScores
    {
      && old(Valid()) && old(currentThrow) < 21
      && var ct := old(currentThrow);
      && var first := old(isFirstThrowInFrame);
      && ThrowRecorded(pinsDown, first && pinsDown == 10,
                       !first && old(throwScores[ct - 1]) + pinsDown == 10, inGutter, outcome)
    }

    /** The throw is written into its slot, announced, the game advanced and rescored. */
    method RecordThrow(recorded: int, isStrike: bool, isSpare: bool, inGutter: bool) returns (outcome: ThrowOutcome)
      requires Valid() && currentThrow < 21
      modifies this, frameScores, throwScores
      ensures ThrowRecorded(recorded, isStrike, isSpare, inGutter, outcome)
    {
      throwScores[currentThrow] := recorded;
      var isGutterBall := inGutter && recorded == 0;
      var call := Announce(isStrike, isSpare, isGutterBall);
      var reset;
      if currentFrame == 9 {
        reset := Handle10thFrame(isStrike, isSpare);
      } else {
        reset := HandleNormalFrame(isStrike);
      }
      CalculateTotalScore();
      outcome := Processed(recorded, call, reset, gameOver);
    }

    /**
     * The scoring part of a throw, as written: the per-throw count is the lane
     * count less the previous throw's, recorded, classified, the game advanced
     * and rescored. With the throw array full, writing the throw fails and
     * nothing changes.
     */
    method ProcessThrowResult(count: int, inGutter: bool) returns (outcome: ThrowOutcome)
      requires Valid()
      modifies this, frameScores, throwScores
      ensures Valid()
      ensures old(currentThrow) >= 21 ==>
        outcome == IndexOutOfRange && unchanged(this) && unchanged(frameScores) && unchanged(throwScores)
      ensures old(currentThrow) < 21 ==> ThrowProcessed(count, inGutter, outcome)
    {
      var pinsKnockedDown := count;
      var pinsKnockedThisThrow :=
        if isFirstThrowInFrame then pinsKnockedDown else pinsKnockedDown - throwScores[currentThrow - 1];
      if currentThrow >= 21 {
        return IndexOutOfRange;
      }
      var isStrike := isFirstThrowInFrame && pinsKnockedDown == 10;
      var isSpare := !isFirstThrowInFrame && pinsKnockedDown == 10;
      outcome := RecordThrow(pinsKnockedThisThrow, isStrike, isSpare, inGutter);
    }

    /**
     * ProcessThrowResult for the lane it runs on. After RemoveKnockedDownPins
     * the lane counts only the pins that fall from then on, so the count is
     * the pins of this throw: it is recorded as it is, and a second throw is a
     * spare when it and the previous throw make 10.
     */
    method ProcessLaneThrow(pinsDown: int, inGutter: bool) returns (outcome: ThrowOutcome)
      requires Valid()
      modifies this, frameScores, throwScores
      ensures Valid()
      ensures old(currentThrow) >= 21 ==>
        outcome == IndexOutOfRange && unchanged(this) && unchanged(frameScores) && unchanged(throwScores)
      ensures old(currentThrow) < 21 ==> LaneThrowProcessed(pinsDown, inGutter, outcome)
    {
      if currentThrow >= 21 {
        return IndexOutOfRange;
      }
      var isStrike := isFirstThrowInFrame && pinsDown == 10;
      var isSpare := !isFirstThrowInFrame && throwScores[currentThrow - 1] + pinsDown == 10;
      outcome := RecordThrow(pinsDown, isStrike, isSpare, inGutter);
    }
  }

}
