/**
 * The game settings of flappybird/settings.py: the four game phases, the
 * constants derived from the screen size, and the dynamic session fields
 * (phase, warm-up timer, travel accumulator, idle timer, pipe colour).
 */
module GameSettings {

  /** `game_states`: the only values `current_state` takes. */
  datatype Phase = Splash | Ready | Play | GameOver

  /** The static settings that the simulation reads. */
  datatype Config = Config(
    gravity: real,
    worldVelocity: real,
    maxStartDelay: int,
    getReadyDelay: int,
    screenWidth: nat,
    screenHeight: nat,
    groundElev: int,
    maxVelocity: real,
    jumpVelocity: real,
    gapHeight: int,
    pipeSpacing: int,
    minPipeHeight: int,
    gapYMin: real,
    gapYMax: real,
    numPipeColors: nat,
    pipeWidth: nat)

  /**
   * The constants as the constructor computes them from the screen size and the width
   * of the pipe image (the per-millisecond rates are the per-frame defaults times 60/1000).
   */
  function Derive(screenWidth: nat, screenHeight: nat, pipeWidth: nat): Config {
    var groundElev := screenHeight - 100;
    var maxVelocity := 9.0 * 60.0 / 1000.0;
    var gapHeight := 180;
    var minPipeHeight := 50;
    Config(
      gravity := 0.5 * 3600.0 / 1000000.0,
      worldVelocity := 3.5 * 60.0 / 1000.0,
      maxStartDelay := 1500,
      getReadyDelay := 1000,
      screenWidth := screenWidth,
      screenHeight := screenHeight,
      groundElev := groundElev,
      maxVelocity := maxVelocity,
      jumpVelocity := 2.0 * maxVelocity,
      gapHeight := gapHeight,
      pipeSpacing := 275,
      minPipeHeight := minPipeHeight,
      gapYMin := gapHeight as real / 2.0 + minPipeHeight as real,
      gapYMax := groundElev as real - gapHeight as real / 2.0 - minPipeHeight as real,
      numPipeColors := 2,
      pipeWidth := pipeWidth)
  }

  /** The flap impulse is twice the velocity cap, and the cap is positive. */
  lemma JumpIsTwiceCap(screenWidth: nat, screenHeight: nat, pipeWidth: nat)
    ensures var c := Derive(screenWidth, screenHeight, pipeWidth);
            c.jumpVelocity == 2.0 * c.maxVelocity && c.maxVelocity > 0.0
  {
  }

  /**
   * The range the gap centre is drawn from is non-empty exactly when the screen is at
   * least 380 pixels tall (100 for the ground, 180 for the gap, 50 for each pipe).
   */
  lemma GapRangeNonEmpty(screenWidth: nat, screenHeight: nat, pipeWidth: nat)
    ensures var c := Derive(screenWidth, screenHeight, pipeWidth);
            c.groundElev == screenHeight - 100 &&
            (c.gapYMin <= c.gapYMax <==> screenHeight >= 380)
  {
  }

  class Settings {
    const cfg: Config
    var state: Phase
    var travelDistance: real
    var idleTime: int
    var startDelay: int
    var pipeColor: nat

    /** The constants are the ones derived from the screen size (they never change). */
    ghost predicate Derived() {
      cfg == Derive(cfg.screenWidth, cfg.screenHeight, cfg.pipeWidth)
    }

    ghost predicate Valid()
      reads this
    {
      pipeColor < cfg.numPipeColors
    }

    /** The start-up state: the splash phase, with the warm-up timer at zero. */
    constructor (screenWidth: nat, screenHeight: nat, pipeWidth: nat)
      ensures Valid() && Derived()
      ensures cfg == Derive(screenWidth, screenHeight, pipeWidth)
      ensures state == Splash && startDelay == 0
      ensures travelDistance == 0.0 && idleTime == 0 && pipeColor == 0
    {
      cfg := Derive(screenWidth, screenHeight, pipeWidth);
      pipeColor := 0;
      new;
      InitDynamicVariables();
      state := Splash;
      startDelay := 0;
    }

    /**
     * Back to the ready phase with the accumulators at zero. The warm-up timer
     * `startDelay` is deliberately not reset, so the warm-up precedes only the first game.
     */
    method InitDynamicVariables()
      modifies this
      ensures state == Ready && travelDistance == 0.0 && idleTime == 0
      ensures startDelay == old(startDelay) && pipeColor == old(pipeColor)
    {
      state := Ready;
      travelDistance := 0.0;
      idleTime := 0;
    }
  }
}
