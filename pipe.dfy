/**
 * The pipe of package/pipe.py: the rectangle of one member of a pipe pair,
 * and a sprite that moves left by its speed each frame and leaves its group
 * once it is off the left edge of the screen.
 */
module Pipes {
  import opened Geometry

  /**
   * The rect of a pipe centred horizontally at `x` whose gap is centred at `gapY`: a top
   * member hangs from the top of the screen down to the gap, any other member stands
   * from the gap down to the bottom of the screen.
   */
  function PipeRect(x: real, gapY: real, isTop: bool, screenHeight: real, width: real, gapHeight: real): (r: Rect)
    ensures r.CenterX() == x && r.width == width
    ensures isTop ==> r.top == 0.0 && r.Bottom() == gapY - gapHeight / 2.0
    ensures !isTop ==> r.top == gapY + gapHeight / 2.0 && r.Bottom() == screenHeight
  {
    if isTop then
      var height := gapY - gapHeight / 2.0;
      var bottom := gapY - gapHeight / 2.0;
      WithCenterX(Rect(0.0, bottom - height, width, height), x)
    else
      var height := screenHeight - gapY - gapHeight / 2.0;
      var top := gapY + gapHeight / 2.0;
      WithCenterX(Rect(0.0, top, width, height), x)
  }

  /** The two members of a pair built around one gap leave exactly `gapHeight` between them. */
  lemma PairGapIsGapHeight(x: real, gapY: real, screenHeight: real, width: real, gapHeight: real)
    ensures PipeRect(x, gapY, false, screenHeight, width, gapHeight).top
            - PipeRect(x, gapY, true, screenHeight, width, gapHeight).Bottom() == gapHeight
  {
  }

  /** A pipe is culled once its right edge is left of the screen's left edge (x = 0). */
  predicate OffScreen(r: Rect) {
    r.Right() < 0.0
  }

  class Pipe {
    const width: real
    const y: real
    const velocity: real
    const gapHeight: real
    const location: string
    var x: real
    var rect: Rect
    /** Whether the sprite still belongs to its group (`kill()` removes it). */
    var alive: bool

    /** The rect is centred on `x` and as wide as the pipe. */
    ghost predicate Valid()
      reads this
    {
      rect.CenterX() == x && rect.width == width
    }

    /**
     * A new pipe starts just right of the screen: its centre is half a width beyond the
     * right edge, so its left edge is exactly on it. A negative size is refused by the
     * framework's surface constructor.
     */
    constructor (gapY: real, location: string, screenWidth: real, screenHeight: real,
                 pipeWidth: real, worldVelocity: real, gapHeight: real)
      requires location == "top" ==> gapY - gapHeight / 2.0 >= 0.0
      requires location != "top" ==> screenHeight - gapY - gapHeight / 2.0 >= 0.0
      ensures rect.left == screenWidth && rect.width == pipeWidth
      ensures y == gapY && velocity == worldVelocity && this.location == location && this.gapHeight == gapHeight
      ensures width == pipeWidth && x == screenWidth + pipeWidth / 2.0
      ensures rect == PipeRect(screenWidth + pipeWidth / 2.0, gapY, location == "top", screenHeight, pipeWidth, gapHeight)
      ensures Valid() && alive
    {
      width := pipeWidth;
      x := screenWidth + pipeWidth / 2.0;
      y := gapY;
      velocity := worldVelocity;
      this.gapHeight := gapHeight;
      this.location := location;
      rect := PipeRect(screenWidth + pipeWidth / 2.0, gapY, location == "top", screenHeight, pipeWidth, gapHeight);
      alive := true;
    }

    /** One frame: move left by `velocity` and leave the group once off screen. */
    method Update()
      requires Valid()
      modifies this
      ensures Valid()
      ensures x == old(x) - velocity
      ensures rect == WithCenterX(old(rect), x)
      ensures rect.Right() == old(rect.Right()) - velocity
      ensures alive == (old(alive) && !OffScreen(rect))
    {
      x := x - velocity;
      rect := WithCenterX(rect, x);
      if OffScreen(rect) {
        alive := false;
      }
    }
  }
}
