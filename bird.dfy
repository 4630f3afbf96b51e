/**
 * The bird of flappybird/bird.py: a flap impulse, explicit-Euler integration
 * of velocity (clamped to the cap) and height while airborne, a tilt angle
 * derived from the height fallen since the last flap, and a cycling animation
 * frame.
 */
module BirdSprite {
  import opened HelperFunctions
  import opened Geometry
  import opened GameSettings

  /** Height below the last flap at which the tilt reaches straight down. */
  const TILT_WINDOW: real := 150.0
  const TILT_UP: real := 20.0
  const TILT_DOWN: real := -90.0
  const START_X: real := 150.0

  class Bird {
    const accel: real
    const maxVelocity: real
    const jumpVelocity: real
    /** `len(frames)`: the number of colour sprite sheets. */
    const numColors: nat
    /** `len(frames[0])`: the number of animation frames per sheet. */
    const numFrames: nat
    const animationSpeed: int
    const idlePeriod: int
    const idleAmp: real
    /** The screen's vertical centre, the rest height of the idle bob. */
    const y0: real

    var color: nat
    var x: real
    var y: real
    var velocity: real
    var angle: real
    var prevJumpElev: real
    var currentFrame: nat
    var animationTime: int
    var idleTime: int
    var rect: Rect

    ghost predicate Valid()
      reads this
    {
      && maxVelocity >= 0.0 && jumpVelocity == 2.0 * maxVelocity
      && numColors > 0 && numFrames > 0
      && color < numColors && currentFrame < numFrames
      && animationSpeed == 75 && idlePeriod == 3000 && idleAmp == 50.0
      && 0 <= idleTime < idlePeriod
    }

    /** The pose and timers of a new game. */
    ghost predicate AtStart()
      reads this
    {
      && x == START_X && y == y0 && velocity == 0.0 && angle == 0.0 && prevJumpElev == 0.0
      && currentFrame == 0 && animationTime == 0 && idleTime == 0
      && rect.CenterX() == x && rect.CenterY() == y
    }

    /**
     * Physics parameters are copied from the settings; the image is `imageWidth` by
     * `imageHeight` and the bird starts in its new-game pose with the first colour.
     */
    constructor (settings: Settings, screenCenterY: real, numColors: nat, numFrames: nat,
                 imageWidth: real, imageHeight: real)
      requires settings.Derived() && numColors > 0 && numFrames > 0
      ensures Valid() && AtStart() && color == 0
      ensures this.numColors == numColors && this.numFrames == numFrames
      ensures accel == settings.cfg.gravity && maxVelocity == settings.cfg.maxVelocity
      ensures jumpVelocity == settings.cfg.jumpVelocity && y0 == screenCenterY
      ensures rect.width == imageWidth && rect.height == imageHeight
    {
      accel := settings.cfg.gravity;
      maxVelocity := settings.cfg.maxVelocity;
      jumpVelocity := settings.cfg.jumpVelocity;
      this.numColors := numColors;
      this.numFrames := numFrames;
      color := 0;
      rect := Rect(0.0, 0.0, imageWidth, imageHeight);
      animationSpeed := 75;
      idlePeriod := 3000;
      idleAmp := 50.0;
      y0 := screenCenterY;
      new;
      InitDynamicVariables();
    }

    /** The new-game pose: x = 150, y at the rest height, everything else zero. */
    method InitDynamicVariables()
      requires numColors > 0 && numFrames > 0 && color < numColors
      modifies this
      ensures AtStart()
      ensures color == old(color) && rect.width == old(rect.width) && rect.height == old(rect.height)
    {
      x := START_X;
      y := y0;
      rect := CenteredAt(x, y, rect.width, rect.height);
      velocity := 0.0;
      angle := 0.0;
      prevJumpElev := 0.0;
      currentFrame := 0;
      animationTime := 0;
      idleTime := 0;
    }

    /** The upward impulse: velocity becomes exactly `-jumpVelocity`, and the tilt reference is the current height. */
    method Flap()
      modifies this
      ensures velocity == -jumpVelocity && prevJumpElev == old(y)
      ensures y == old(y) && x == old(x) && angle == old(angle) && rect == old(rect)
      ensures color == old(color) && currentFrame == old(currentFrame)
      ensures animationTime == old(animationTime) && idleTime == old(idleTime)
    {
      velocity := -jumpVelocity;
      prevJumpElev := y;
    }

    /** The next colour sheet, cycling through all of them. */
    method ChangeColor()
      requires Valid()
      modifies this
      ensures Valid()
      ensures color == (old(color) + 1) % numColors
      ensures x == old(x) && y == old(y) && velocity == old(velocity) && angle == old(angle)
      ensures prevJumpElev == old(prevJumpElev) && rect == old(rect)
      ensures currentFrame == old(currentFrame) && animationTime == old(animationTime) && idleTime == old(idleTime)
    {
      color := (color + 1) % numColors;
    }

    /** The animation clock: after more than 75 ms the next frame is shown and the clock restarts. */
    twostate predicate Animated(dt: int)
      reads this`animationTime, this`currentFrame
    {
      if old(animationTime) + dt > animationSpeed
      then animationTime == 0 && numFrames > 0 && currentFrame == (old(currentFrame) + 1) % numFrames
      else animationTime == old(animationTime) + dt && currentFrame == old(currentFrame)
    }

    /** The idle bob: the phase clock wraps at `idlePeriod`; height and tilt follow its sine and cosine. */
    twostate predicate Bobbed(dt: int, sinTheta: real, cosTheta: real)
      reads this`idleTime, this`y, this`angle, this`velocity
    {
      && idlePeriod > 0 && idleTime == (old(idleTime) + dt) % idlePeriod
      && y == y0 + idleAmp * sinTheta && angle == -45.0 * cosTheta
      && velocity == old(velocity)
    }

    /**
     * One explicit-Euler step under gravity: the velocity gains `accel * dt` and is clamped
     * to the cap, then the height gains `velocity * dt`; the tilt follows the height fallen
     * since the last flap.
     */
    twostate predicate Fell(dt: int)
      reads this`velocity, this`y, this`angle, this`prevJumpElev
    {
      && velocity == Clamp(old(velocity) + accel * dt as real, -maxVelocity, maxVelocity)
      && y == old(y) + velocity * dt as real
      && angle == Translate(y, prevJumpElev, prevJumpElev + TILT_WINDOW, TILT_UP, TILT_DOWN)
    }

    /**
     * One frame of `dt` milliseconds. Outside the game-over phase the animation clock
     * runs and the frame advances every 75 ms. In the splash and ready phases the bird
     * bobs around its rest height, given `sinTheta` and `cosTheta` of the bob's phase.
     * In play and game-over, while above the ground, velocity is integrated and clamped,
     * then height, and the tilt follows the height fallen since the last flap. The rect
     * is recentred on the bird with the rotated image's size.
     */
    method Update(dt: int, settings: Settings, sinTheta: real, cosTheta: real,
                  rotWidth: real, rotHeight: real)
      requires Valid()
      requires -1.0 <= sinTheta <= 1.0 && -1.0 <= cosTheta <= 1.0
      modifies this
      ensures Valid()
      ensures settings.state != GameOver ==> Animated(dt)
      ensures settings.state == GameOver ==>
                animationTime == old(animationTime) && currentFrame == old(currentFrame)
      ensures settings.state in {Splash, Ready} ==>
                Bobbed(dt, sinTheta, cosTheta) && y0 - idleAmp <= y <= y0 + idleAmp
      ensures settings.state in {Play, GameOver} && old(y) < settings.cfg.groundElev as real ==>
                Fell(dt) && -maxVelocity <= velocity <= maxVelocity && TILT_DOWN <= angle <= TILT_UP
      ensures settings.state in {Play, GameOver} && old(y) >= settings.cfg.groundElev as real ==>
                velocity == old(velocity) && y == old(y) && angle == old(angle)
      ensures settings.state in {Play, GameOver} ==> idleTime == old(idleTime)
      ensures rect == CenteredAt(x, y, rotWidth, rotHeight)
      ensures x == old(x) && color == old(color) && prevJumpElev == old(prevJumpElev)
    {
      if settings.state != GameOver {
        Animate(dt);
      }
      if settings.state == Splash || settings.state == Ready {
        Bob(dt, sinTheta, cosTheta);
      } else if y < settings.cfg.groundElev as real {
        Fall(dt);
      }
      rect := CenteredAt(x, y, rotWidth, rotHeight);
    }

    method Animate(dt: int)
      requires Valid()
      modifies this
      ensures Valid() && Animated(dt)
      ensures x == old(x) && y == old(y) && velocity == old(velocity) && angle == old(angle) && rect == old(rect)
      ensures color == old(color) && prevJumpElev == old(prevJumpElev) && idleTime == old(idleTime)
    {
      animationTime := animationTime + dt;
      if animationTime > animationSpeed {
        animationTime := 0;
        currentFrame := (currentFrame + 1) % numFrames;
      }
    }

    method Bob(dt: int, sinTheta: real, cosTheta: real)
      requires Valid() && -1.0 <= sinTheta <= 1.0
      modifies this
      ensures Valid() && Bobbed(dt, sinTheta, cosTheta)
      ensures y0 - idleAmp <= y <= y0 + idleAmp
      ensures x == old(x) && color == old(color) && prevJumpElev == old(prevJumpElev) && rect == old(rect)
      ensures currentFrame == old(currentFrame) && animationTime == old(animationTime)
    {
      idleTime := (idleTime + dt) % idlePeriod;
      y := y0 + idleAmp * sinTheta;
      angle := -45.0 * cosTheta;
      BobBounded(sinTheta);
    }

    method Fall(dt: int)
      requires Valid()
      modifies this
      ensures Valid() && Fell(dt)
      ensures -maxVelocity <= velocity <= maxVelocity
      ensures TILT_DOWN <= angle <= TILT_UP
      ensures x == old(x) && color == old(color) && prevJumpElev == old(prevJumpElev) && rect == old(rect)
      ensures currentFrame == old(currentFrame) && animationTime == old(animationTime) && idleTime == old(idleTime)
    {
      var newVelocity := velocity + accel * dt as real;
      velocity := Clamp(newVelocity, -maxVelocity, maxVelocity);
      y := y + velocity * dt as real;
      angle := Translate(y, prevJumpElev, prevJumpElev + TILT_WINDOW, TILT_UP, TILT_DOWN);
      TranslateBounded(y, prevJumpElev, prevJumpElev + TILT_WINDOW, TILT_UP, TILT_DOWN);
    }

    lemma BobBounded(s: real)
      requires idleAmp == 50.0 && -1.0 <= s <= 1.0
      ensures y0 - idleAmp <= y0 + idleAmp * s <= y0 + idleAmp
    {
    }
  }
}
