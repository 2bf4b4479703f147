/**
 * The two scorers of the repository agree: over a game bowled by the rules
 * (ValidGame), the walk of the flat throw array (Assets/Scripts/GameManager.cs)
 * and the frame table (Assets/Script/BowlingScoreManager.cs) give the same
 * total.
 */
module ScorerAgreement {
  import opened BowlingRules
  import FrameTableScorer
  import ThrowWalk
  import ThrowArrayPlay

  lemma ScorersAgree(g: Game)
    requires ValidGame(g)
    ensures |GameRolls(g)| <= 21
    ensures Sum(ThrowWalk.FrameScores(ThrowWalk.Padded(GameRolls(g)), |GameRolls(g)| + 1, 0, 0))
      == FrameTableScorer.TableTotal(FrameTableScorer.TableOf(g))
  {
    ThrowWalk.FlatMatchesRules(g);
    FrameTableScorer.TableMatchesRules(g);
  }

  /**
   * The same game, bowled by the rules into both scorers, ends with the same
   * total in each; the flat scorer is fed from the lane model through
   * ProcessLaneThrow.
   */
  method PlayBoth(g: Game, showsScore: bool) returns (tableTotal: int, flatTotal: int)
    requires ValidGame(g)
    ensures tableTotal == flatTotal
  {
    tableTotal := FrameTableScorer.PlayGame(g, showsScore);
    flatTotal := ThrowArrayPlay.PlayGameFlat(g);
  }
}
