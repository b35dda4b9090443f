/**
 * Window rectangles and the overall boundary that all greeter windows share.
 * Coordinates are C `int`s in the source; here they are unbounded integers.
 */
module Geometry {

  /** INT_MAX of a 32-bit C int: the sentinel the boundary fold starts from. */
  const INT_MAX: int := 0x7fff_ffff

  /** A GdkRectangle. */
  datatype Rect = Rect(x: int, y: int, width: int, height: int)
  {
    function Right(): int { x + width }
    function Bottom(): int { y + height }
  }

  /** The smallest box around every window: minimum left/top, maximum right/bottom. */
  datatype OverallBoundary = OverallBoundary(minX: int, minY: int, maxX: int, maxY: int)

  /** The fold's starting point: INT_MAX for the minima and -INT_MAX (not INT_MIN) for the maxima. */
  const InitialBoundary: OverallBoundary := OverallBoundary(INT_MAX, INT_MAX, -INT_MAX, -INT_MAX)

  function Min(a: int, b: int): int { if a <= b then a else b }
  function Max(a: int, b: int): int { if a >= b then a else b }

  /** One step of the fold: widen `ob` so that it also covers `g`. */
  function Accumulate(ob: OverallBoundary, g: Rect): OverallBoundary
  {
    OverallBoundary(Min(ob.minX, g.x), Min(ob.minY, g.y), Max(ob.maxX, g.Right()), Max(ob.maxY, g.Bottom()))
  }

  /** The boundary folded over `rects` from the first rectangle to the last. */
  function BoundaryOf(rects: seq<Rect>): OverallBoundary
  {
    if rects == [] then InitialBoundary
    else Accumulate(BoundaryOf(rects[..|rects| - 1]), rects[|rects| - 1])
  }

  /** With no window the sentinels are what comes out. */
  lemma EmptyBoundary()
    ensures BoundaryOf([]) == OverallBoundary(INT_MAX, INT_MAX, -INT_MAX, -INT_MAX)
  {
  }

  /** The boundary lies on or outside every rectangle and never inside the sentinels. */
  lemma {:induction false} BoundaryCovers(rects: seq<Rect>)
    ensures var ob := BoundaryOf(rects);
      ob.minX <= INT_MAX && ob.minY <= INT_MAX && ob.maxX >= -INT_MAX && ob.maxY >= -INT_MAX
    ensures var ob := BoundaryOf(rects);
      forall i :: 0 <= i < |rects| ==>
        ob.minX <= rects[i].x && ob.minY <= rects[i].y &&
        ob.maxX >= rects[i].Right() && ob.maxY >= rects[i].Bottom()
  {
    if rects != [] {
      var init := rects[..|rects| - 1];
      BoundaryCovers(init);
      forall i | 0 <= i < |rects| - 1
        ensures rects[i] == init[i]
      {
      }
    }
  }

  /**
   * Each coordinate of the boundary is attained: it is either the sentinel or the
   * coordinate of some rectangle.
   */
  lemma {:induction false} BoundaryAttained(rects: seq<Rect>)
    ensures var ob := BoundaryOf(rects);
      (ob.minX == INT_MAX || exists i :: 0 <= i < |rects| && ob.minX == rects[i].x) &&
      (ob.minY == INT_MAX || exists i :: 0 <= i < |rects| && ob.minY == rects[i].y) &&
      (ob.maxX == -INT_MAX || exists i :: 0 <= i < |rects| && ob.maxX == rects[i].Right()) &&
      (ob.maxY == -INT_MAX || exists i :: 0 <= i < |rects| && ob.maxY == rects[i].Bottom())
  {
    if rects != [] {
      var init := rects[..|rects| - 1];
      BoundaryAttained(init);
      var ob0 := BoundaryOf(init);
      forall i | 0 <= i < |init|
        ensures init[i] == rects[i]
      {
      }
    }
  }

  /**
   * For rectangles inside the 32-bit range, the sentinels never survive a non-empty
   * fold: the boundary is exactly the minimum and maximum over the rectangles.
   */
  lemma NonEmptyBoundaryExact(rects: seq<Rect>)
    requires rects != []
    requires forall i :: 0 <= i < |rects| ==> rects[i].x <= INT_MAX && rects[i].y <= INT_MAX
    requires forall i :: 0 <= i < |rects| ==> rects[i].Right() >= -INT_MAX && rects[i].Bottom() >= -INT_MAX
    ensures var ob := BoundaryOf(rects);
      (exists i :: 0 <= i < |rects| && ob.minX == rects[i].x) &&
      (exists i :: 0 <= i < |rects| && ob.minY == rects[i].y) &&
      (exists i :: 0 <= i < |rects| && ob.maxX == rects[i].Right()) &&
      (exists i :: 0 <= i < |rects| && ob.maxY == rects[i].Bottom())
  {
    BoundaryCovers(rects);
    BoundaryAttained(rects);
    var ob := BoundaryOf(rects);
    if ob.minX == INT_MAX { assert ob.minX == rects[0].x; }
    if ob.minY == INT_MAX { assert ob.minY == rects[0].y; }
    if ob.maxX == -INT_MAX { assert ob.maxX == rects[0].Right(); }
    if ob.maxY == -INT_MAX { assert ob.maxY == rects[0].Bottom(); }
  }
}
