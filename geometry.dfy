/**
 * Axis-aligned rectangles with real coordinates, standing in for the
 * framework's `Rect` for the bird and the pipes. Screen y grows downward,
 * so `top` is the smaller y and `Bottom()` the larger one.
 */
module Geometry {

  datatype Rect = Rect(left: real, top: real, width: real, height: real) {
    function Right(): real { left + width }
    function Bottom(): real { top + height }
    function CenterX(): real { left + width / 2.0 }
    function CenterY(): real { top + height / 2.0 }
  }

  /** The rect of the given size whose centre is (cx, cy) (`rect.center = cx, cy`). */
  function CenteredAt(cx: real, cy: real, width: real, height: real): (r: Rect)
    ensures r.CenterX() == cx && r.CenterY() == cy
    ensures r.width == width && r.height == height
  {
    Rect(cx - width / 2.0, cy - height / 2.0, width, height)
  }

  /** `rect.centerx = cx`: moves the rect horizontally, keeping its size and its vertical span. */
  function WithCenterX(r: Rect, cx: real): (r': Rect)
    ensures r'.CenterX() == cx
    ensures r'.top == r.top && r'.width == r.width && r'.height == r.height
  {
    r.(left := cx - r.width / 2.0)
  }
}
