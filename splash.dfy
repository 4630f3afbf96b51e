/**
 * The splash screen of flappybird/splash.py: a six-stage sequence (wait,
 * fade in, hold, fade out, wait, done) driven one stage step per frame.
 */
module SplashScreen {
  import opened HelperFunctions

  /** The stages, in the order they run. */
  datatype Stage = Delay0 | FadingIn | Delay1 | FadingOut | Delay2 | Done

  function Rank(s: Stage): nat {
    match s
    case Delay0 => 0
    case FadingIn => 1
    case Delay1 => 2
    case FadingOut => 3
    case Delay2 => 4
    case Done => 5
  }

  const FADE_SPEED: int := 10
  /** Milliseconds before the fade-in, after the fade-in, after the fade-out. */
  const DELAY: seq<int> := [2000, 2000, 0]

  class Splash {
    const image: Surface
    var fadeIn: bool
    var fadeOut: bool
    var animationTime: seq<int>
    var animating: bool

    ghost predicate Valid()
      reads this
    {
      |animationTime| == 3 && (!animating ==> CurrentStage() == Done)
    }

    /** The stage the next update works on: the first whose timer or fade is unfinished. */
    function CurrentStage(): Stage
      reads this
      requires |animationTime| == 3
    {
      if animationTime[0] < DELAY[0] then Delay0
      else if !fadeIn then FadingIn
      else if animationTime[1] < DELAY[1] then Delay1
      else if !fadeOut then FadingOut
      else if animationTime[2] < DELAY[2] then Delay2
      else Done
    }

    constructor (image: Surface)
      modifies image
      ensures this.image == image
      ensures Valid() && AtStart()
    {
      this.image := image;
      new;
      InitDynamicVariables();
    }

    /** All timers at zero, no fade finished, animating, the image transparent. */
    ghost predicate AtStart()
      reads this, image
    {
      && animationTime == [0, 0, 0] && !fadeIn && !fadeOut && animating
      && image.alpha == 0
    }

    method InitDynamicVariables()
      modifies this, image
      ensures Valid() && AtStart()
    {
      fadeIn := false;
      fadeOut := false;
      animationTime := [0, 0, 0];
      animating := true;
      image.SetAlpha(0);
    }

    /**
     * One frame of `dt` milliseconds: exactly the current stage's timer or fade moves,
     * and in the last stage the sequence reports that it has finished. With a
     * non-negative `dt` the stage never goes back.
     */
    method Update(dt: int)
      requires Valid()
      modifies this, image
      ensures Valid()
      ensures old(CurrentStage()) in {Delay0, Delay1, Delay2} ==>
                var k := Rank(old(CurrentStage())) / 2;
                && animationTime == old(animationTime)[k := old(animationTime)[k] + dt]
                && fadeIn == old(fadeIn) && fadeOut == old(fadeOut)
                && image.alpha == old(image.alpha) && animating == old(animating)
      ensures old(CurrentStage()) == FadingIn ==>
                && fadeIn == FadeComplete(old(image.alpha), 255, FADE_SPEED)
                && image.alpha == (if fadeIn then old(image.alpha) else old(image.alpha) + FADE_SPEED)
                && animationTime == old(animationTime) && fadeOut == old(fadeOut)
                && animating == old(animating)
      ensures old(CurrentStage()) == FadingOut ==>
                && fadeOut == FadeComplete(old(image.alpha), 0, -FADE_SPEED)
                && image.alpha == (if fadeOut then old(image.alpha) else old(image.alpha) - FADE_SPEED)
                && animationTime == old(animationTime) && fadeIn == old(fadeIn)
                && animating == old(animating)
      ensures old(CurrentStage()) == Done ==>
                && !animating
                && animationTime == old(animationTime) && fadeIn == old(fadeIn) && fadeOut == old(fadeOut)
                && image.alpha == old(image.alpha)
      ensures dt >= 0 ==> Rank(CurrentStage()) >= Rank(old(CurrentStage()))
    {
      if animationTime[0] < DELAY[0] {
        animationTime := animationTime[0 := animationTime[0] + dt];
      } else if !fadeIn {
        fadeIn := image.Fade(255, FADE_SPEED);
      } else if animationTime[1] < DELAY[1] {
        animationTime := animationTime[1 := animationTime[1] + dt];
      } else if !fadeOut {
        fadeOut := image.Fade(0, -FADE_SPEED);
      } else if animationTime[2] < DELAY[2] {
        animationTime := animationTime[2 := animationTime[2] + dt];
      } else {
        animating := false;
      }
    }
  }

  /**
   * The sequence stops animating only after every timer has reached its delay and both
   * fades have reported completion; from then on an update changes nothing.
   */
  lemma FinishedMeansAllStagesDone(s: Splash)
    requires s.Valid() && !s.animating
    ensures s.animationTime[0] >= DELAY[0] && s.fadeIn
    ensures s.animationTime[1] >= DELAY[1] && s.fadeOut
    ensures s.animationTime[2] >= DELAY[2]
  {
  }
}
