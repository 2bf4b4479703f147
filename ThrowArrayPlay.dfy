/**
 * A completed game bowled on the lane of Assets/Scripts/BowlingLane.cs
 * through the flat-throw-array scorer of Assets/Scripts/GameManager.cs: each
 * ball knocks down pins of the lane, the scorer reads the lane's count, and
 * the lane carries out the pin reset the scorer asks for.
 */
module ThrowArrayPlay {
  import opened BowlingRules
  import opened ThrowWalk
  import opened ThrowArrayScorer
  import opened PinLane

  /**
   * The state after the throws `done`, with n throws bowled in frame k+1
   * (0-based k) and `first` the class's first-throw flag.
   */
  ghost predicate InFrame(m: GameManager, done: seq<int>, k: int, n: int, first: bool)
    reads m, m.throwScores
  {
    && m.Valid() && !m.gameOver && m.isFirstThrowInFrame == first
    && 0 <= k <= 9 && m.currentFrame == k
    && |done| <= 21 && m.currentThrow == |done|
    && m.throwScores[..] == Padded(done)
    && ThrowIndex(Padded(done), k) == |done| - n
  }

  /** The frames the class scores, and their total, once the last throw of a game has been recorded. */
  ghost predicate ScoredThrows(m: GameManager, done: seq<int>)
    reads m, m.frameScores, m.throwScores
  {
    && |done| <= 21 && m.frameScores.Length == 10
    && var s := FrameScores(Padded(done), |done| + 1, 0, 0);
    && m.frameScores[..|s|] == s && m.totalScore == Sum(s)
  }

  /** The lane holds n pins, none of them knocked down, and can set up a fresh rack. */
  ghost predicate Ready(lane: Lane, n: int)
    reads lane
  {
    lane.canSetUp && |lane.pins| == n && KnockedCount(lane.pins) == 0
  }

  /** A ball knocks down k of the standing pins, and the lane is asked how many are down. */
  method Roll(lane: Lane, k: int) returns (count: int)
    requires KnockedCount(lane.pins) == 0 && 0 <= k <= |lane.pins|
    modifies lane
    ensures count == k && KnockedCount(lane.pins) == k && |lane.pins| == |old(lane.pins)|
  {
    AllStanding(lane.pins);
    for i := 0 to k
      invariant |lane.pins| == |old(lane.pins)| && KnockedCount(lane.pins) == i
      invariant forall j :: i <= j < |lane.pins| ==> !lane.pins[j].knocked
    {
      KnockOne(lane.pins, i);
      lane.KnockDown(i);
    }
    count := lane.GetKnockedDownPinCount();
  }

  /** SetupPins: a fresh rack of ten standing pins. */
  method SetUpAfresh(lane: Lane)
    requires lane.canSetUp
    modifies lane
    ensures Ready(lane, 10)
  {
    lane.SetupPins();
    RackStands(lane.pins);
  }

  /** RemoveKnockedDownPins: the standing pins are left, none of them knocked down. */
  method RemoveFallenPins(lane: Lane)
    requires lane.canSetUp
    modifies lane
    ensures Ready(lane, |old(lane.pins)| - KnockedCount(old(lane.pins)))
  {
    ghost var before := lane.pins;
    lane.RemoveKnockedDownPins();
    StandingMembers(before);
    KnockedCountBounds(before);
  }

  /** The pin reset the scorer asks for, carried out on the lane. */
  method ApplyReset(lane: Lane, reset: ResetMode)
    requires lane.canSetUp
    modifies lane
    ensures reset == FullReset ==> Ready(lane, 10)
    ensures reset == PartialReset ==> Ready(lane, |old(lane.pins)| - KnockedCount(old(lane.pins)))
    ensures reset == NoReset ==> lane.pins == old(lane.pins)
  {
    if reset == FullReset {
      SetUpAfresh(lane);
    } else if reset == PartialReset {
      RemoveFallenPins(lane);
    }
  }

  /** A strike in frame k+1, one of frames 1 to 9. */
  method FlatStrike(m: GameManager, lane: Lane, ghost done: seq<int>, ghost k: int)
    requires InFrame(m, done, k, 0, true) && k < 9 && Ready(lane, 10)
    modifies m, m.throwScores, m.frameScores, lane
    ensures InFrame(m, done + [10], k + 1, 0, true) && Ready(lane, 10)
  {
    var count := Roll(lane, 10);
    var outcome := m.ProcessLaneThrow(count, false);
    ApplyReset(lane, outcome.reset);
    PaddedAppend(done, 10);
    assert Padded(done)[..|done|] == Padded(done + [10])[..|done|];
    ThrowIndexPrefix(Padded(done), Padded(done + [10]), k);
  }

  /** A first throw of a < 10 pins in frame k+1: the knocked-down pins are removed. */
  method FlatFirst(m: GameManager, lane: Lane, ghost done: seq<int>, ghost k: int, a: int)
    requires InFrame(m, done, k, 0, true) && 0 <= a < 10 && Ready(lane, 10)
    modifies m, m.throwScores, m.frameScores, lane
    ensures InFrame(m, done + [a], k, 1, false) && Ready(lane, 10 - a)
    ensures k == 9 ==> ScoredThrows(m, done + [a])
  {
    var count := Roll(lane, a);
    var outcome := m.ProcessLaneThrow(count, false);
    ApplyReset(lane, outcome.reset);
    PaddedAppend(done, a);
    assert Padded(done)[..|done|] == Padded(done + [a])[..|done|];
    ThrowIndexPrefix(Padded(done), Padded(done + [a]), k);
  }

  /** A second throw of b of the 10 - a pins left in frame k+1, one of frames 1 to 9. */
  method FlatSecond(m: GameManager, lane: Lane, ghost done: seq<int>, ghost k: int, a: int, b: int)
    requires InFrame(m, done, k, 1, false) && k < 9 && 0 <= a < 10 && 0 <= b <= 10 - a
    requires done[|done| - 1] == a && Ready(lane, 10 - a)
    modifies m, m.throwScores, m.frameScores, lane
    ensures InFrame(m, done + [b], k + 1, 0, true) && Ready(lane, 10)
  {
    var count := Roll(lane, b);
    var outcome := m.ProcessLaneThrow(count, false);
    ApplyReset(lane, outcome.reset);
    PaddedAppend(done, b);
    var p := |done| - 1;
    assert Padded(done)[..p] == Padded(done + [b])[..p];
    ThrowIndexPrefix(Padded(done), Padded(done + [b]), k);
  }

  /**
   * The throw of x pins that ends the game: the second of an open tenth
   * frame (n == 1) or a bonus throw (n == 2).
   */
  method TenthEndingThrow(m: GameManager, lane: Lane, ghost done: seq<int>, ghost n: int, x: int)
    requires InFrame(m, done, 9, n, m.isFirstThrowInFrame) && (n == 1 || n == 2)
    requires lane.canSetUp && KnockedCount(lane.pins) == 0 && 0 <= x <= |lane.pins|
    requires n == 1 ==> !m.isFirstThrowInFrame && done[|done| - 1] != 10 && done[|done| - 1] + x != 10
    modifies m, m.throwScores, m.frameScores, lane
    ensures |done| < 21 && m.gameOver
    ensures m.throwScores[..] == Padded(done + [x])
    ensures ScoredThrows(m, done + [x])
  {
    assert |done| <= 20 by {
      assert ThrowIndex(Padded(done), 9) <= 18;
    }
    ghost var before := m.throwScores[..];
    assert |done| >= 1 ==> before[|done| - 1] == done[|done| - 1] by {
      if |done| >= 1 { assert before[..|done|][|done| - 1] == done[|done| - 1]; }
    }
    var count := Roll(lane, x);
    var outcome := m.ProcessLaneThrow(count, false);
    ApplyReset(lane, outcome.reset);
    assert m.throwScores[..] == before[|done| := x];
    PaddedAppend(done, x);
    var p := |done| - n;
    assert Padded(done)[..p] == Padded(done + [x])[..p];
    ThrowIndexPrefix(Padded(done), Padded(done + [x]), 9);
  }

  /**
   * The second throw of a tenth frame, of x pins, when it earns a third: any
   * throw after a first-throw strike, or the one completing a spare. The pins
   * are set up afresh after a strike or a spare, and only the knocked-down
   * ones removed otherwise; the next throw counts as a first one exactly
   * after a fresh rack.
   */
  method TenthBonusThrow(m: GameManager, lane: Lane, ghost done: seq<int>, ghost first: bool, x: int)
    requires InFrame(m, done, 9, 1, first) && lane.canSetUp && KnockedCount(lane.pins) == 0
    requires 0 <= x <= |lane.pins|
    requires first ==> done[|done| - 1] == 10 && |lane.pins| == 10
    requires !first ==> done[|done| - 1] + x == 10
    modifies m, m.throwScores, m.frameScores, lane
    ensures InFrame(m, done + [x], 9, 2, !first || x == 10)
    ensures !first || x == 10 ==> Ready(lane, 10)
    ensures first && x < 10 ==> Ready(lane, 10 - x)
  {
    assert |done| <= 20 by {
      assert ThrowIndex(Padded(done), 9) <= 18;
    }
    ghost var before := m.throwScores[..];
    assert before[|done| - 1] == done[|done| - 1] by {
      assert before[..|done|][|done| - 1] == done[|done| - 1];
    }
    var count := Roll(lane, x);
    var outcome := m.ProcessLaneThrow(count, false);
    ApplyReset(lane, outcome.reset);
    PaddedAppend(done, x);
    var p := |done| - 1;
    assert Padded(done)[..p] == Padded(done + [x])[..p];
    ThrowIndexPrefix(Padded(done), Padded(done + [x]), 9);
  }

  /** An open tenth frame of a then b pins. */
  method FlatTenthOpen(m: GameManager, lane: Lane, ghost done: seq<int>, a: int, b: int)
    requires InFrame(m, done, 9, 0, true) && 0 <= a && 0 <= b && a + b < 10 && Ready(lane, 10)
    modifies m, m.throwScores, m.frameScores, lane
    ensures |done + [a, b]| <= 21 && m.gameOver && m.throwScores[..] == Padded(done + [a, b])
    ensures ScoredThrows(m, done + [a, b])
  {
    FlatFirst(m, lane, done, 9, a);
    TenthEndingThrow(m, lane, done + [a], 1, b);
    assert done + [a] + [b] == done + [a, b];
  }

  /** A tenth-frame spare after a pins, and its bonus throw of c pins. */
  method FlatTenthSpare(m: GameManager, lane: Lane, ghost done: seq<int>, a: int, c: int)
    requires InFrame(m, done, 9, 0, true) && 0 <= a < 10 && 0 <= c <= 10 && Ready(lane, 10)
    modifies m, m.throwScores, m.frameScores, lane
    ensures |done + [a, 10 - a, c]| <= 21 && m.gameOver && m.throwScores[..] == Padded(done + [a, 10 - a, c])
    ensures ScoredThrows(m, done + [a, 10 - a, c])
  {
    FlatFirst(m, lane, done, 9, a);
    TenthBonusThrow(m, lane, done + [a], false, 10 - a);
    assert done + [a] + [10 - a] == done + [a, 10 - a];
    TenthEndingThrow(m, lane, done + [a, 10 - a], 2, c);
    assert done + [a, 10 - a] + [c] == done + [a, 10 - a, c];
  }

  /** A tenth-frame strike and its bonus throws of b and c pins. */
  method FlatTenthStrike(m: GameManager, lane: Lane, ghost done: seq<int>, b: int, c: int)
    requires InFrame(m, done, 9, 0, true) && 0 <= b <= 10 && 0 <= c <= 10 && (b < 10 ==> b + c <= 10)
    requires Ready(lane, 10)
    modifies m, m.throwScores, m.frameScores, lane
    ensures |done + [10, b, c]| <= 21 && m.gameOver && m.throwScores[..] == Padded(done + [10, b, c])
    ensures ScoredThrows(m, done + [10, b, c])
  {
    FlatTenthFirstStrike(m, lane, done);
    TenthBonusThrow(m, lane, done + [10], true, b);
    assert done + [10] + [b] == done + [10, b];
    TenthEndingThrow(m, lane, done + [10, b], 2, c);
    assert done + [10, b] + [c] == done + [10, b, c];
  }

  /** A strike on the first throw of the tenth frame: the pins are set up afresh and the frame goes on. */
  method FlatTenthFirstStrike(m: GameManager, lane: Lane, ghost done: seq<int>)
    requires InFrame(m, done, 9, 0, true) && Ready(lane, 10)
    modifies m, m.throwScores, m.frameScores, lane
    ensures InFrame(m, done + [10], 9, 1, true) && Ready(lane, 10)
  {
    assert |done| <= 18 by {
      assert ThrowIndex(Padded(done), 9) <= 18;
    }
    var count := Roll(lane, 10);
    var outcome := m.ProcessLaneThrow(count, false);
    ApplyReset(lane, outcome.reset);
    PaddedAppend(done, 10);
    assert Padded(done)[..|done|] == Padded(done + [10])[..|done|];
    ThrowIndexPrefix(Padded(done), Padded(done + [10]), 9);
  }

  /** The tenth frame with its bonus throws; `done` holds the throws of frames 1 to 9. */
  method FlatTenth(m: GameManager, lane: Lane, ghost done: seq<int>, t: Tenth)
    requires InFrame(m, done, 9, 0, true) && ValidTenth(t) && Ready(lane, 10)
    modifies m, m.throwScores, m.frameScores, lane
    ensures |done + TenthRolls(t)| <= 21
    ensures m.gameOver && m.throwScores[..] == Padded(done + TenthRolls(t))
    ensures ScoredThrows(m, done + TenthRolls(t))
  {
    match t {
      case TenthOpen(a, b) => FlatTenthOpen(m, lane, done, a, b);
      case TenthSpare(a, c) => FlatTenthSpare(m, lane, done, a, c);
      case TenthStrike(b, c) => FlatTenthStrike(m, lane, done, b, c);
    }
  }

  /** Frame k+1, one of frames 1 to 9. */
  method FlatFrame(m: GameManager, lane: Lane, ghost done: seq<int>, ghost k: int, f: Frame)
    requires InFrame(m, done, k, 0, true) && k < 9 && ValidFrame(f) && Ready(lane, 10)
    modifies m, m.throwScores, m.frameScores, lane
    ensures InFrame(m, done + FrameRolls(f), k + 1, 0, true) && Ready(lane, 10)
  {
    match f {
      case Strike =>
        FlatStrike(m, lane, done, k);
      case Spare(a) =>
        FlatFirst(m, lane, done, k, a);
        FlatSecond(m, lane, done + [a], k, a, 10 - a);
        assert done + [a] + [10 - a] == done + FrameRolls(f);
      case Open(a, b) =>
        FlatFirst(m, lane, done, k, a);
        FlatSecond(m, lane, done + [a], k, a, b);
        assert done + [a] + [b] == done + FrameRolls(f);
    }
  }

  /**
   * Concatenation regrouped, outside the heavy context of the game loop:
   * stated inline there, the step runs the solver out of resource.
   */
  lemma ConcatAssoc(a: seq<int>, b: seq<int>, c: seq<int>)
    ensures a + (b + c) == (a + b) + c
  {
  }

  /**
   * Bowls a completed game on a new lane into a new scorer, and returns the
   * total the scorer ends with.
   */
  method PlayGameFlat(g: Game) returns (total: int)
    requires ValidGame(g)
    ensures total == GameScore(g)
  {
    var m := new GameManager();
    var lane := new Lane(true);
    ApplyReset(lane, FullReset);
    ghost var done: seq<int> := [];
    assert Padded([]) == Repeat(0, 21);
    for k := 0 to 9
      invariant InFrame(m, done, k, 0, true)
      invariant done + Rolls(g.frames[k..], g.tenth) == GameRolls(g)
      invariant fresh(m.throwScores) && fresh(m.frameScores) && Ready(lane, 10)
    {
      var f := g.frames[k];
      assert ValidFrame(f);
      ghost var rest := Rolls(g.frames[k + 1..], g.tenth);
      assert Rolls(g.frames[k..], g.tenth) == FrameRolls(f) + rest by {
        assert g.frames[k..][0] == f && g.frames[k..][1..] == g.frames[k + 1..];
      }
      FlatFrame(m, lane, done, k, f);
      ConcatAssoc(done, FrameRolls(f), rest);
      done := done + FrameRolls(f);
    }
    assert g.frames[9..] == [];
    FlatTenth(m, lane, done, g.tenth);
    FlatMatchesRules(g);
    total := m.totalScore;
  }

  // ----- The first two throws of a game on the lane, as written and corrected -----

  /**
   * As written: a first throw of a pins and a second of b on the lane, read by
   * ProcessThrowResult. RemoveKnockedDownPins leaves the lane counting only
   * the b new falls, and the subtraction records b - a: the second throw is
   * miscounted, and its spare missed, whenever the first throw hit a pin.
   */
  method SecondThrowAsWritten(a: int, b: int) returns (recorded: int, call: Announcement)
    requires 0 <= a < 10 && 0 <= b <= 10 - a
    ensures recorded == b - a
    ensures call == (if a == 0 && b == 10 then SpareCall else NoCall)
  {
    var m := new GameManager();
    var lane := new Lane(true);
    SetUpAfresh(lane);
    var count := Roll(lane, a);
    var first := m.ProcessThrowResult(count, false);
    ApplyReset(lane, first.reset);
    count := Roll(lane, b);
    var second := m.ProcessThrowResult(count, false);
    recorded, call := second.recorded, second.call;
  }

  /** Seven pins, then the three left standing: the second throw is recorded as -4 and no spare is called. */
  method SevenThenThree() returns (recorded: int, call: Announcement)
    ensures recorded == -4 && call == NoCall
  {
    recorded, call := SecondThrowAsWritten(7, 3);
  }

  /**
   * Corrected: the same two throws read by ProcessLaneThrow. The second throw
   * records its own b pins, and the spare is called exactly when a and b
   * clear the rack.
   */
  method SecondThrowOnLane(a: int, b: int) returns (recorded: int, call: Announcement)
    requires 0 <= a < 10 && 0 <= b <= 10 - a
    ensures recorded == b
    ensures call == (if a + b == 10 then SpareCall else NoCall)
  {
    var m := new GameManager();
    var lane := new Lane(true);
    SetUpAfresh(lane);
    var count := Roll(lane, a);
    var first := m.ProcessLaneThrow(count, false);
    ApplyReset(lane, first.reset);
    count := Roll(lane, b);
    var second := m.ProcessLaneThrow(count, false);
    recorded, call := second.recorded, second.call;
  }
}
