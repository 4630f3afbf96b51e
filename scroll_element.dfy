/**
 * The scrolling layers (backdrop and ground) of flappybird/scroll_element.py
 * and of the prototype package/scroll_element.py, which has the same layout
 * and update but a single image: a fixed ring of tiles shifted left every
 * frame, at most one of which is moved to the right end per frame.
 */
module ScrollElements {

  /** Python's `int()` on a float: truncation toward zero. */
  function Trunc(v: real): (r: int)
    ensures v >= 0.0 ==> r as real <= v < r as real + 1.0
    ensures v < 0.0 ==> r as real - 1.0 < v <= r as real
  {
    if v >= 0.0 then v.Floor else -((-v).Floor)
  }

  /** The tile that `rects[i - 1]` names: the previous one, and the last one for index 0. */
  function Pred(i: nat, n: nat): nat
    requires i < n
  {
    if i == 0 then n - 1 else i - 1
  }

  function Shifted(xs: seq<real>, d: real): (r: seq<real>)
    ensures |r| == |xs| && forall i :: 0 <= i < |xs| ==> r[i] == xs[i] - d
  {
    seq(|xs|, i requires 0 <= i < |xs| => xs[i] - d)
  }

  function Lefts(xs: seq<real>): (r: seq<int>)
    ensures |r| == |xs| && forall i :: 0 <= i < |xs| ==> r[i] == Trunc(xs[i])
  {
    seq(|xs|, i requires 0 <= i < |xs| => Trunc(xs[i]))
  }

  /** The first index from `from` on whose tile (of width `w`) has its right edge left of 0, or `|lefts|`. */
  function FirstOffscreen(lefts: seq<int>, w: int, from: nat): (k: nat)
    requires from <= |lefts|
    ensures from <= k <= |lefts|
    ensures k < |lefts| ==> lefts[k] + w < 0
    ensures forall j :: from <= j < k ==> lefts[j] + w >= 0
    decreases |lefts| - from
  {
    if from == |lefts| then from
    else if lefts[from] + w < 0 then from
    else FirstOffscreen(lefts, w, from + 1)
  }

  /** Tile positions: the float x coordinates and the integer rect left edges. */
  datatype Tiles = Tiles(xs: seq<real>, lefts: seq<int>)

  /** A tile whose right edge, after shifting by `d`, is left of the screen. */
  predicate ScrolledOff(xs: seq<real>, d: real, w: int, i: nat)
    requires i < |xs|
  {
    Trunc(xs[i] - d) + w < 0
  }

  /**
   * One scroll step by `d`: every tile moves left by `d` and its rect to the truncated
   * position; then the lowest-index tile scrolled off the screen, if any, is placed at
   * its predecessor's right edge, and no other tile is moved back.
   */
  function Scroll(xs: seq<real>, d: real, w: int): (t: Tiles)
    requires |xs| > 0
    ensures |t.xs| == |xs| && |t.lefts| == |xs|
  {
    var sx := Shifted(xs, d);
    var ls := Lefts(sx);
    var k := FirstOffscreen(ls, w, 0);
    if k < |xs| then
      var left := ls[Pred(k, |xs|)] + w;
      Tiles(sx[k := left as real], ls[k := left])
    else
      Tiles(sx, ls)
  }

  /**
   * What a scroll step does to each tile: the first tile that has scrolled off is placed
   * at its predecessor's shifted rect plus `w`; every other tile is merely shifted.
   */
  lemma ScrollMovesTiles(xs: seq<real>, d: real, w: int)
    requires |xs| > 0
    ensures var t := Scroll(xs, d, w);
            forall i :: 0 <= i < |xs| ==>
              if ScrolledOff(xs, d, w, i) && (forall j :: 0 <= j < i ==> !ScrolledOff(xs, d, w, j))
              then t.lefts[i] == Trunc(xs[Pred(i, |xs|)] - d) + w && t.xs[i] == t.lefts[i] as real
              else t.xs[i] == xs[i] - d && t.lefts[i] == Trunc(xs[i] - d)
  {
    forall i | 0 <= i < |xs| {
      ScrollMovesTile(xs, d, w, i);
    }
  }

  /** What a scroll step does to tile `i`. */
  lemma ScrollMovesTile(xs: seq<real>, d: real, w: int, i: nat)
    requires i < |xs|
    ensures var t := Scroll(xs, d, w);
            if ScrolledOff(xs, d, w, i) && (forall j :: 0 <= j < i ==> !ScrolledOff(xs, d, w, j))
            then t.lefts[i] == Trunc(xs[Pred(i, |xs|)] - d) + w && t.xs[i] == t.lefts[i] as real
            else t.xs[i] == xs[i] - d && t.lefts[i] == Trunc(xs[i] - d)
  {
    FirstOffscreenIsLowest(xs, d, w, i);
  }

  /** The search of a scroll step finds exactly the lowest-index tile that has scrolled off. */
  lemma FirstOffscreenIsLowest(xs: seq<real>, d: real, w: int, i: nat)
    requires i < |xs|
    ensures (ScrolledOff(xs, d, w, i) && (forall j :: 0 <= j < i ==> !ScrolledOff(xs, d, w, j)))
            <==> i == FirstOffscreen(Lefts(Shifted(xs, d)), w, 0)
  {
    var ls := Lefts(Shifted(xs, d));
    var k := FirstOffscreen(ls, w, 0);
    if i < k {
      assert !ScrolledOff(xs, d, w, i);
    } else if i > k {
      assert ScrolledOff(xs, d, w, k);
    }
  }

  /** The tile left as it was by a scroll step: moved by exactly `d`, with its rect truncated. */
  predicate Plain(xs: seq<real>, d: real, t: Tiles, i: nat)
    requires i < |xs| && |t.xs| == |xs| && |t.lefts| == |xs|
  {
    t.xs[i] == xs[i] - d && t.lefts[i] == Trunc(xs[i] - d)
  }

  /** At most one tile per step is repositioned (the search stops at the first one). */
  lemma AtMostOneWrapped(xs: seq<real>, d: real, w: int, i: nat, j: nat)
    requires i < j < |xs|
    ensures Plain(xs, d, Scroll(xs, d, w), i) || Plain(xs, d, Scroll(xs, d, w), j)
  {
    ScrollMovesTiles(xs, d, w);
    var t := Scroll(xs, d, w);
    if !Plain(xs, d, t, j) {
      assert ScrolledOff(xs, d, w, j) && forall k :: 0 <= k < j ==> !ScrolledOff(xs, d, w, k);
      assert !ScrolledOff(xs, d, w, i);
    }
  }

  /**
   * When some tile has scrolled off, the lowest-index one is wrapped: with at least two
   * tiles it ends up butted against the right edge of its predecessor, which itself was
   * not repositioned.
   */
  lemma WrapsLowestScrolledOff(xs: seq<real>, d: real, w: int, k: nat)
    requires 2 <= |xs| && k < |xs| && ScrolledOff(xs, d, w, k)
    requires forall j :: 0 <= j < k ==> !ScrolledOff(xs, d, w, j)
    ensures var t := Scroll(xs, d, w);
            && t.lefts[k] == t.lefts[Pred(k, |xs|)] + w && t.xs[k] == t.lefts[k] as real
            && Plain(xs, d, t, Pred(k, |xs|))
            && forall i :: 0 <= i < |xs| && i != k ==> Plain(xs, d, t, i)
  {
    ScrollMovesTiles(xs, d, w);
    var t := Scroll(xs, d, w);
    forall i | 0 <= i < |xs| && i != k
      ensures Plain(xs, d, t, i)
    {
      if i > k {
        assert !(forall j :: 0 <= j < i ==> !ScrolledOff(xs, d, w, j)) by {
          assert ScrolledOff(xs, d, w, k);
        }
      }
    }
  }

  /** When no tile has scrolled off, every tile is simply shifted. */
  lemma NothingOffNothingWrapped(xs: seq<real>, d: real, w: int)
    requires |xs| > 0
    requires forall j :: 0 <= j < |xs| ==> !ScrolledOff(xs, d, w, j)
    ensures Scroll(xs, d, w) == Tiles(Shifted(xs, d), Lefts(Shifted(xs, d)))
  {
    ScrollMovesTiles(xs, d, w);
    var t := Scroll(xs, d, w);
    assert t.xs == Shifted(xs, d);
    assert t.lefts == Lefts(Shifted(xs, d));
  }

  /** A frame of `dt` milliseconds scrolled layer `e` by `velocity * dt`, on the same scene. */
  twostate predicate Scrolled(e: ScrollElem, dt: int)
    reads e
  {
    && |old(e.xs)| > 0 && e.scene == old(e.scene)
    && var t := Scroll(old(e.xs), e.velocity * dt as real, e.tileWidth);
       e.xs == t.xs && e.rects == t.lefts
  }

  class ScrollElem {
    /** `len(images)`: the scenes this layer can show (one for the prototype). */
    const numImages: nat
    var scene: nat
    const tileWidth: int
    const y: real
    const velocity: real
    const numTiles: nat
    /** The tiles' float x coordinates. */
    var xs: seq<real>
    /** The left edges of the tiles' rects; every rect is `tileWidth` wide and at height `y`. */
    var rects: seq<int>

    ghost predicate Valid()
      reads this
    {
      && numImages > 0 && scene < numImages
      && tileWidth > 0 && numTiles >= 2
      && |xs| == numTiles && |rects| == numTiles
    }

    /**
     * Enough tiles to cover the screen plus two, laid edge to edge from x = 0: tile i
     * starts at `i * tileWidth`.
     */
    constructor (numImages: nat, tileWidth: int, y: real, velocity: real, screenWidth: nat)
      requires numImages > 0 && tileWidth > 0
      ensures Valid()
      ensures this.numImages == numImages && scene == 0 && this.tileWidth == tileWidth && this.y == y && this.velocity == velocity
      ensures numTiles == screenWidth / tileWidth + 2
      ensures forall i :: 0 <= i < numTiles ==> xs[i] == (i * tileWidth) as real && rects[i] == i * tileWidth
    {
      this.numImages := numImages;
      scene := 0;
      this.tileWidth := tileWidth;
      this.y := y;
      this.velocity := velocity;
      numTiles := screenWidth / tileWidth + 2;
      xs := [];
      rects := [];
      new;
      var i := 0;
      while i < numTiles
        invariant 0 <= i <= numTiles && scene == 0
        invariant |xs| == i && |rects| == i
        invariant forall j :: 0 <= j < i ==> xs[j] == (j * tileWidth) as real && rects[j] == j * tileWidth
      {
        var x := tileWidth * i;
        xs := xs + [x as real];
        rects := rects + [x];
        i := i + 1;
      }
    }

    /** The next scene; the tiles stay where they are. */
    method ChangeScene()
      requires Valid()
      modifies this
      ensures Valid()
      ensures scene == (old(scene) + 1) % numImages
      ensures xs == old(xs) && rects == old(rects)
    {
      scene := (scene + 1) % numImages;
    }

    /** One frame of `dt` milliseconds: a scroll step by `velocity * dt`. */
    method Update(dt: int)
      requires Valid()
      modifies this
      ensures Valid() && Scrolled(this, dt)
    {
      var d := velocity * dt as real;
      ghost var sx := Shifted(xs, d);
      ghost var ls := Lefts(sx);

      // First pass: shift every tile and truncate its rect
      var i := 0;
      while i < numTiles
        invariant 0 <= i <= numTiles && |xs| == numTiles && |rects| == numTiles
        invariant scene == old(scene)
        invariant forall j :: 0 <= j < i ==> xs[j] == sx[j] && rects[j] == ls[j]
        invariant forall j :: i <= j < numTiles ==> xs[j] == old(xs[j])
      {
        xs := xs[i := xs[i] - d];
        rects := rects[i := Trunc(xs[i])];
        i := i + 1;
      }
      assert xs == sx && rects == ls;

      // Second pass: wrap the lowest-index tile whose rect is off screen, if any
      i := 0;
      while i < numTiles
        invariant 0 <= i <= numTiles
        invariant forall j :: 0 <= j < i ==> ls[j] + tileWidth >= 0
      {
        if rects[i] + tileWidth < 0 {
          var left := rects[Pred(i, numTiles)] + tileWidth;
          rects := rects[i := left];
          xs := xs[i := left as real];
          assert FirstOffscreen(ls, tileWidth, 0) == i;
          return;
        }
        i := i + 1;
      }
      assert FirstOffscreen(ls, tileWidth, 0) == numTiles;
    }
  }
}
