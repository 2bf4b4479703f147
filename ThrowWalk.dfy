/**
 * The throw-array walk of Assets/Scripts/GameManager.cs as functions: where
 * each frame starts in the flat array of throws (GetThrowIndexForFrame) and
 * what each frame scores (CalculateTotalScore), with the proof that the walk
 * over the throws of a completed game gives the rules' score.
 */
module ThrowWalk {
  import opened BowlingRules

  /** The throw array after the throws `r` of a new game: r, then zeros up to 21. */
  function Padded(r: seq<int>): (t: seq<int>)
    requires |r| <= 21
    ensures |t| == 21 && t[..|r|] == r
    ensures forall i :: |r| <= i < 21 ==> t[i] == 0
  {
    r + Repeat(0, 21 - |r|)
  }

  lemma PaddedAppend(r: seq<int>, x: int)
    requires |r| < 21
    ensures Padded(r + [x]) == Padded(r)[|r| := x]
  {
  }

  // ----- GetThrowIndexForFrame -----

  /** The index of the first throw of frame `frame` (0-based): a strike before the tenth frame takes one slot, any other frame two. */
  function ThrowIndex(t: seq<int>, frame: int): (r: int)
    requires |t| == 21 && frame <= 10
    ensures frame <= 0 ==> r == 0
    ensures frame > 0 ==> frame <= r <= 2 * frame
    // |t| in the measure keeps the verifier from unrolling calls on a literal frame number
    decreases frame, |t|
  {
    if frame <= 0 then 0
    else
      var p := ThrowIndex(t, frame - 1);
      p + (if t[p] == 10 && frame - 1 < 9 then 1 else 2)
  }

  /** ThrowIndex reads only the throws before the index it returns. */
  lemma {:induction false} ThrowIndexPrefix(t: seq<int>, u: seq<int>, frame: int)
    requires |t| == 21 && |u| == 21 && frame <= 10
    requires t[..ThrowIndex(t, frame)] == u[..ThrowIndex(t, frame)]
    ensures ThrowIndex(u, frame) == ThrowIndex(t, frame)
  {
    if frame > 0 {
      var p := ThrowIndex(t, frame - 1);
      assert t[..p] == t[..ThrowIndex(t, frame)][..p];
      assert u[..p] == u[..ThrowIndex(t, frame)][..p];
      ThrowIndexPrefix(t, u, frame - 1);
      assert t[p] == t[..ThrowIndex(t, frame)][p];
      assert u[p] == u[..ThrowIndex(t, frame)][p];
    }
  }

  // ----- CalculateTotalScore -----

  /** The score of the frame starting at throw idx and the index of the frame after it. */
  function FrameAt(t: seq<int>, idx: int): (r: (int, int))
    requires |t| == 21 && 0 <= idx < 21
    ensures idx + 1 <= r.1 <= idx + 2
  {
    var next1 := if idx + 1 < 21 then t[idx + 1] else 0;
    var next2 := if idx + 2 < 21 then t[idx + 2] else 0;
    if t[idx] == 10 then (10 + next1 + next2, idx + 1)
    else if idx + 1 < 21 && t[idx] + t[idx + 1] == 10 then (10 + next2, idx + 2)
    else (t[idx] + next1, idx + 2)
  }

  /**
   * The frame scores the walk computes from frame `frame`, starting at throw
   * idx, until frame 10 or until the index reaches `limit`.
   */
  function FrameScores(t: seq<int>, limit: int, frame: int, idx: int): (s: seq<int>)
    requires |t| == 21 && 0 <= frame <= 10 && 0 <= idx <= 2 * frame
    ensures |s| <= 10 - frame
    decreases 10 - frame, |t|
  {
    if frame == 10 || idx >= limit then []
    else [FrameAt(t, idx).0] + FrameScores(t, limit, frame + 1, FrameAt(t, idx).1)
  }

  lemma {:induction false} SumAppend(s: seq<int>, x: int)
    ensures Sum(s + [x]) == Sum(s) + x
  {
    if s != [] {
      assert (s + [x])[1..] == s[1..] + [x];
      SumAppend(s[1..], x);
    }
  }

  /** The throws t[idx..] begin with the rolls r. */
  predicate Holds(t: seq<int>, idx: int, r: seq<int>) {
    0 <= idx && idx + |r| <= |t| && t[idx..idx + |r|] == r
  }

  lemma HoldsAt(t: seq<int>, idx: int, r: seq<int>, j: int)
    requires Holds(t, idx, r) && 0 <= j < |r|
    ensures t[idx + j] == r[j]
  {
    assert t[idx..idx + |r|][j] == r[j];
  }

  lemma HoldsSplit(t: seq<int>, idx: int, a: seq<int>, b: seq<int>)
    requires Holds(t, idx, a + b)
    ensures Holds(t, idx + |a|, b)
  {
    assert t[idx + |a|..idx + |a| + |b|] == t[idx..idx + |a| + |b|][|a|..];
    assert (a + b)[|a|..] == b;
  }

  /** The walk scores an ordinary frame whose rolls, and the two rolls after them, start at throw idx. */
  lemma WalkFrame(f: Frame, rest: seq<int>, t: seq<int>, idx: int)
    requires ValidFrame(f) && |t| == 21 && 0 <= idx <= 16 && |rest| >= 2
    requires Holds(t, idx, FrameRolls(f) + rest)
    ensures FrameAt(t, idx) == (FrameValue(f, rest), idx + |FrameRolls(f)|)
  {
    var r := FrameRolls(f) + rest;
    HoldsAt(t, idx, r, 0);
    HoldsAt(t, idx, r, 1);
    HoldsAt(t, idx, r, 2);
  }

  /** The walk scores the tenth frame, whose rolls start at throw idx, as the sum of its rolls. */
  lemma WalkTenth(tenth: Tenth, t: seq<int>, idx: int)
    requires ValidTenth(tenth) && |t| == 21 && 0 <= idx <= 18
    requires Holds(t, idx, TenthRolls(tenth))
    ensures FrameAt(t, idx).0 == Sum(TenthRolls(tenth))
  {
    var r := TenthRolls(tenth);
    HoldsAt(t, idx, r, 0);
    HoldsAt(t, idx, r, 1);
    if |r| == 3 { HoldsAt(t, idx, r, 2); }
    TenthSum(tenth);
  }

  /** The walk scores the tenth frame last. */
  lemma FlatScoresTenth(tenth: Tenth, t: seq<int>, limit: int, idx: int)
    requires ValidTenth(tenth) && |t| == 21 && 0 <= idx <= 18
    requires Holds(t, idx, TenthRolls(tenth)) && limit >= idx + |TenthRolls(tenth)|
    ensures FrameScores(t, limit, 9, idx) == [Sum(TenthRolls(tenth))]
  {
    WalkTenth(tenth, t, idx);
  }

  /** One step of the walk: the first of frames fs is scored as the rules score it, and the walk moves past its rolls. */
  lemma FlatStep(fs: seq<Frame>, tenth: Tenth, t: seq<int>, limit: int, frame: int, idx: int) returns (next: int)
    requires ValidFrames(fs) && ValidTenth(tenth) && 1 <= |fs| <= 9 && frame == 9 - |fs| && |t| == 21
    requires 0 <= idx <= 2 * frame
    requires Holds(t, idx, Rolls(fs, tenth)) && limit >= idx + |Rolls(fs, tenth)|
    ensures ValidFrames(fs[1..])
    ensures next == idx + |FrameRolls(fs[0])| && next <= 2 * (frame + 1)
    ensures Holds(t, next, Rolls(fs[1..], tenth)) && limit >= next + |Rolls(fs[1..], tenth)|
    ensures |FrameScores(t, limit, frame, idx)| == 1 + |FrameScores(t, limit, frame + 1, next)|
    ensures Sum(FrameScores(t, limit, frame, idx)) - Sum(FrameScores(t, limit, frame + 1, next))
      == Score(fs, tenth) - Score(fs[1..], tenth)
  {
    var f := fs[0];
    assert ValidFrame(f);
    var rest := Rolls(fs[1..], tenth);
    assert Rolls(fs, tenth) == FrameRolls(f) + rest;
    forall j | 0 <= j < |fs[1..]| ensures ValidFrame(fs[1..][j]) {
      assert fs[1..][j] == fs[j + 1];
    }
    WalkFrame(f, rest, t, idx);
    HoldsSplit(t, idx, FrameRolls(f), rest);
    next := idx + |FrameRolls(f)|;
    var tail := FrameScores(t, limit, frame + 1, next);
    assert ([FrameValue(f, rest)] + tail)[1..] == tail;
  }

  /**
   * The walk over an array holding the rolls of frames fs and the tenth frame,
   * from throw idx on, scores them as the rules do.
   */
  lemma {:induction false} FlatScoresFrom(fs: seq<Frame>, tenth: Tenth, t: seq<int>, limit: int, frame: int, idx: int)
    requires ValidFrames(fs) && ValidTenth(tenth) && |fs| <= 9 && frame == 9 - |fs| && |t| == 21
    requires 0 <= idx <= 2 * frame
    requires Holds(t, idx, Rolls(fs, tenth)) && limit >= idx + |Rolls(fs, tenth)|
    ensures |FrameScores(t, limit, frame, idx)| == |fs| + 1
    ensures Sum(FrameScores(t, limit, frame, idx)) == Score(fs, tenth)
    decreases |fs|
  {
    if fs == [] {
      FlatScoresTenth(tenth, t, limit, idx);
      assert [Sum(TenthRolls(tenth))][1..] == [];
    } else {
      var next := FlatStep(fs, tenth, t, limit, frame, idx);
      FlatScoresFrom(fs[1..], tenth, t, limit, frame + 1, next);
    }
  }

  /** Over the throws of a completed game, the walk scores all ten frames and totals the rules' score. */
  lemma FlatMatchesRules(g: Game)
    requires ValidGame(g)
    ensures |GameRolls(g)| <= 21
    ensures |FrameScores(Padded(GameRolls(g)), |GameRolls(g)| + 1, 0, 0)| == 10
    ensures Sum(FrameScores(Padded(GameRolls(g)), |GameRolls(g)| + 1, 0, 0)) == GameScore(g)
  {
    GameScoreBounds(g);
    var r := GameRolls(g);
    var t := Padded(r);
    FlatScoresFrom(g.frames, g.tenth, t, |r| + 1, 0, 0);
  }

  /** The frames scored after twelve throws of 10 total 300. */
  lemma FlatPerfectGame()
    ensures Sum(FrameScores(Padded(Repeat(10, 12)), 13, 0, 0)) == 300
  {
    PerfectGameScores300();
    FlatMatchesRules(PerfectGame());
  }

}
