/**
 * The score keeping of package/stats.py: the current score, the high score,
 * and the set of pipes already credited. Pipes are named by the numeric
 * identity the pipe group gives each sprite.
 */
module GameStats {

  class Stats {
    var highScore: int
    var score: int
    var pipesCleared: set<nat>

    /** A fresh record: no score, no high score, nothing cleared. */
    constructor ()
      ensures highScore == 0 && score == 0 && pipesCleared == {}
    {
      highScore := 0;
      pipesCleared := {};
      new;
      InitDynamicVariables();
    }

    /** A new game: the score restarts, the high score and the cleared set are kept. */
    method InitDynamicVariables()
      modifies this
      ensures score == 0
      ensures highScore == old(highScore) && pipesCleared == old(pipesCleared)
    {
      score := 0;
    }

    /** Credits one point (the caller records the pipe in `pipesCleared`). */
    method IncreaseScore()
      modifies this
      ensures score == old(score) + 1
      ensures highScore == old(highScore) && pipesCleared == old(pipesCleared)
    {
      score := score + 1;
    }

    /**
     * Raises the high score to the current score when it is beaten, and reports whether
     * it was.
     */
    method CheckHighScore() returns (isNew: bool)
      modifies this
      ensures isNew <==> old(score) > old(highScore)
      ensures highScore == if old(score) > old(highScore) then old(score) else old(highScore)
      ensures highScore >= old(highScore) && highScore >= score
      ensures score == old(score) && pipesCleared == old(pipesCleared)
    {
      if score > highScore {
        highScore := score;
        return true;
      }
      return false;
    }
  }
}
