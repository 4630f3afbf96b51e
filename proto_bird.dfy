/**
 * The bird of the earlier prototype, package/bird.py: the same clamped
 * integrator, but stepped once per frame with no time scaling and no ground
 * check, and no tilt.
 */
module ProtoBird {
  import opened HelperFunctions

  class Bird {
    /** The horizontal position never changes after construction. */
    const x: real
    const accel: real
    const maxVelocity: real
    const jumpVelocity: real
    var y: real
    var velocity: real
    /** `rect.centery`, kept on the bird's height. */
    var rectCenterY: real

    /** Starts at x = 150 in the vertical centre of the screen, at rest. */
    constructor (screenCenterY: real, gravity: real, maxVelocity: real, jumpVelocity: real)
      ensures x == 150.0 && y == screenCenterY && velocity == 0.0 && rectCenterY == y
      ensures accel == gravity && this.maxVelocity == maxVelocity && this.jumpVelocity == jumpVelocity
    {
      x := 150.0;
      y := screenCenterY;
      accel := gravity;
      velocity := 0.0;
      this.maxVelocity := maxVelocity;
      this.jumpVelocity := jumpVelocity;
      rectCenterY := screenCenterY;
    }

    /** The impulse sets the velocity to exactly `-jumpVelocity`. */
    method Flap()
      modifies this
      ensures velocity == -jumpVelocity
      ensures y == old(y) && rectCenterY == old(rectCenterY)
    {
      velocity := -jumpVelocity;
    }

    /**
     * One frame: the velocity gains `accel` and is clamped to the cap, then the height
     * gains the new velocity. With a non-negative cap the velocity is within it afterwards,
     * even right after a flap set it to twice the cap.
     */
    method Update()
      modifies this
      ensures velocity == Clamp(old(velocity) + accel, -maxVelocity, maxVelocity)
      ensures maxVelocity >= 0.0 ==> -maxVelocity <= velocity <= maxVelocity
      ensures y == old(y) + velocity && rectCenterY == y
    {
      var newVelocity := velocity + accel;
      velocity := Clamp(newVelocity, -maxVelocity, maxVelocity);
      y := y + velocity;
      rectCenterY := y;
    }
  }
}
