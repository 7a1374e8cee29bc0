/**
 * The preview's placement logic: a drawing's footprint on the bed, whether it fits, and
 * the drag controller that turns pointer movement into a clamped bed offset.
 */
module Preview {
  import opened Wrappers
  import opened Dimensions

  /** A point, or an offset, in bed millimetres (`[f64; 2]`). */
  datatype Point = Point(x: real, y: real)

  /** The preview element's bounding client rectangle, in screen pixels. */
  datatype Rect = Rect(left: real, top: real, width: real, height: real)

  /** The drawing's size on the bed: its size times its scale, or nothing at all when unknown. */
  function Footprint(size: Option<Size>, scale: real): (fp: Size)
    ensures size.None? ==> fp == Size(0.0, 0.0)
    ensures size.Some? && scale == 1.0 ==> fp == size.value
  {
    match size
    case Some(s) => Size(s.width * scale, s.height * scale)
    case None => Size(0.0, 0.0)
  }

  /** Each axis of the footprint is at most the bed's; the bed's own edge still fits. */
  predicate FitsOnBed(fp: Size, bed: Size): (fits: bool)
    ensures fits <==> exists offset :: OnBed(offset, bed, fp)
  {
    assert fp.width <= bed.width && fp.height <= bed.height ==> OnBed(Point(0.0, 0.0), bed, fp);
    fp.width <= bed.width && fp.height <= bed.height
  }

  /** The "too large for bed" warning: a known size that does not fit. */
  predicate ShowsTooLarge(size: Option<Size>, scale: real, bed: Size): (warns: bool)
    ensures warns <==> (size.Some? &&
      (size.value.width * scale > bed.width || size.value.height * scale > bed.height))
  {
    !FitsOnBed(Footprint(size, scale), bed) && size.Some?
  }

  lemma FitsOnBedIff(size: Size, scale: real, bed: Size)
    ensures FitsOnBed(Footprint(Some(size), scale), bed)
        <==> size.width * scale <= bed.width && size.height * scale <= bed.height
  {
  }

  /** A drawing scaled to exactly the bed fits; one a little larger on either axis does not. */
  lemma FitsOnBedBoundary(bed: Size, d: real)
    requires d > 0.0
    ensures FitsOnBed(Footprint(Some(bed), 1.0), bed)
    ensures !FitsOnBed(Footprint(Some(Size(bed.width + d, bed.height)), 1.0), bed)
    ensures !FitsOnBed(Footprint(Some(Size(bed.width, bed.height + d)), 1.0), bed)
  {
  }

  /** An unknown size never shows the warning; a known one shows it exactly when it does not fit. */
  lemma TooLargeOnlyWhenKnown(size: Option<Size>, scale: real, bed: Size)
    ensures size.None? ==> !ShowsTooLarge(size, scale, bed)
    ensures size.Some? ==> (ShowsTooLarge(size, scale, bed) <==> !FitsOnBed(Footprint(size, scale), bed))
  {
  }

  /** Shrinking a drawing that fits keeps it on the bed. */
  lemma ShrinkingKeepsFit(size: Size, small: real, large: real, bed: Size)
    requires size.width >= 0.0 && size.height >= 0.0
    requires 0.0 <= small <= large
    requires FitsOnBed(Footprint(Some(size), large), bed)
    ensures FitsOnBed(Footprint(Some(size), small), bed)
  {
    assert size.width * small <= size.width * large by {
      MulMonotone(size.width, small, large);
    }
    assert size.height * small <= size.height * large by {
      MulMonotone(size.height, small, large);
    }
  }

  lemma MulMonotone(a: real, x: real, y: real)
    requires a >= 0.0 && x <= y
    ensures a * x <= a * y
  {
    assert a * y - a * x == a * (y - x);
  }

  /** Rust's `f64::max` and `f64::min` on ordinary numbers. */
  function Max(a: real, b: real): real {
    if a >= b then a else b
  }

  function Min(a: real, b: real): real {
    if a <= b then a else b
  }

  /**
   * One axis of the pointer mapping: the pointer's distance from the rectangle's edge, as a
   * fraction of the rectangle, times the bed. The rectangle's edges map to the bed's edges.
   */
  function PointerToBed(client: real, edge: real, extent: real, bedExtent: real): (b: real)
    requires extent != 0.0
    ensures client == edge ==> b == 0.0
    ensures client == edge + extent ==> b == bedExtent
    ensures b * extent == (client - edge) * bedExtent
  {
    ((client - edge) / extent) * bedExtent
  }

  /** The pointer's position in bed millimetres. */
  function BedPoint(pointer: Point, rect: Rect, bed: Size): (p: Point)
    requires rect.width != 0.0 && rect.height != 0.0
    ensures p.x * rect.width == (pointer.x - rect.left) * bed.width
    ensures p.y * rect.height == (pointer.y - rect.top) * bed.height
  {
    Point(PointerToBed(pointer.x, rect.left, rect.width, bed.width),
          PointerToBed(pointer.y, rect.top, rect.height, bed.height))
  }

  function Sub(a: Point, b: Point): Point {
    Point(a.x - b.x, a.y - b.y)
  }

  /**
   * `candidate.max(0).min(bed - footprint)`: within the bed when the footprint fits on
   * this axis; when it does not, the `min` applied last wins and the result is the
   * negative value `bed - footprint` wherever the pointer is.
   */
  function ClampAxis(candidate: real, bedExtent: real, footprintExtent: real): (r: real)
    ensures footprintExtent <= bedExtent ==> 0.0 <= r <= bedExtent - footprintExtent
    ensures footprintExtent <= bedExtent && 0.0 <= candidate <= bedExtent - footprintExtent ==> r == candidate
    ensures footprintExtent <= bedExtent && candidate < 0.0 ==> r == 0.0
    ensures footprintExtent <= bedExtent && candidate > bedExtent - footprintExtent ==> r == bedExtent - footprintExtent
    ensures footprintExtent > bedExtent ==> r == bedExtent - footprintExtent < 0.0
  {
    Min(Max(candidate, 0.0), bedExtent - footprintExtent)
  }

  /** The offset keeps the whole footprint on the bed. */
  predicate OnBed(offset: Point, bed: Size, fp: Size) {
    0.0 <= offset.x <= bed.width - fp.width && 0.0 <= offset.y <= bed.height - fp.height
  }

  /**
   * Both axes clamped independently: whatever the pointer does, a drawing that fits is kept
   * entirely on the bed, and an offset already on the bed is left where it is.
   */
  function ClampPoint(candidate: Point, bed: Size, fp: Size): (p: Point)
    ensures FitsOnBed(fp, bed) ==> OnBed(p, bed, fp)
    ensures FitsOnBed(fp, bed) && OnBed(candidate, bed, fp) ==> p == candidate
    ensures fp.width > bed.width ==> p.x == bed.width - fp.width
    ensures fp.height > bed.height ==> p.y == bed.height - fp.height
  {
    Point(ClampAxis(candidate.x, bed.width, fp.width), ClampAxis(candidate.y, bed.height, fp.height))
  }

  /**
   * The drag state of one preview (`is_dragging`, `drag_start`). The grab offset is the
   * pointer's bed position minus the drawing's offset when the drag began.
   */
  class DragController {
    var isDragging: bool
    var dragStart: Option<Point>

    /** A drag in progress always has its grab offset. */
    ghost predicate Valid()
      reads this
    {
      isDragging ==> dragStart.Some?
    }

    constructor ()
      ensures Valid() && !isDragging && dragStart == None
    {
      isDragging := false;
      dragStart := None;
    }

    /** `onmousedown`: anchor the drag at the pointer, relative to the drawing's current offset. */
    method MouseDown(pointer: Point, rect: Rect, bed: Size, offset: Point)
      requires rect.width != 0.0 && rect.height != 0.0
      modifies this
      ensures Valid() && isDragging
      ensures dragStart == Some(Sub(BedPoint(pointer, rect, bed), offset))
    {
      var p := BedPoint(pointer, rect, bed);
      dragStart := Some(Point(p.x - offset.x, p.y - offset.y));
      isDragging := true;
    }

    /**
     * `onmousemove`: while dragging, the new offset is the pointer's bed position minus
     * the grab offset, clamped on each axis; at rest, nothing is emitted.
     */
    method MouseMove(pointer: Point, rect: Rect, bed: Size, fp: Size) returns (emitted: Option<Point>)
      requires Valid()
      requires isDragging ==> rect.width != 0.0 && rect.height != 0.0
      ensures emitted.Some? <==> isDragging
      ensures emitted.Some? ==> emitted.value == ClampPoint(Sub(BedPoint(pointer, rect, bed), dragStart.value), bed, fp)
      ensures emitted.Some? && FitsOnBed(fp, bed) ==> OnBed(emitted.value, bed, fp)
    {
      emitted := None;
      if isDragging {
        match dragStart {
          case Some(start) =>
            var p := BedPoint(pointer, rect, bed);
            var newX := Min(Max(p.x - start.x, 0.0), bed.width - fp.width);
            var newY := Min(Max(p.y - start.y, 0.0), bed.height - fp.height);
            emitted := Some(Point(newX, newY));
          case None =>
        }
      }
    }

    /** `onmouseup`: the drag ends; the grab offset is left as it was. */
    method MouseUp()
      modifies this
      ensures Valid() && !isDragging && dragStart == old(dragStart)
    {
      isDragging := false;
    }

    /** `onmouseleave`: the same as releasing the button. */
    method MouseLeave()
      modifies this
      ensures Valid() && !isDragging && dragStart == old(dragStart)
    {
      isDragging := false;
    }
  }

  /**
   * A press, a move that does not move, a release and another move: the first move gives
   * back the drawing's offset (clamped), so the drawing does not jump to the pointer, and
   * nothing is emitted once the button is up.
   */
  method PressMoveRelease(pointer: Point, rect: Rect, bed: Size, fp: Size, offset: Point)
    returns (first: Option<Point>, afterRelease: Option<Point>)
    requires rect.width != 0.0 && rect.height != 0.0
    ensures first == Some(ClampPoint(offset, bed, fp))
    ensures FitsOnBed(fp, bed) && OnBed(offset, bed, fp) ==> first == Some(offset)
    ensures afterRelease == None
  {
    var drag := new DragController();
    drag.MouseDown(pointer, rect, bed, offset);
    first := drag.MouseMove(pointer, rect, bed, fp);
    var p := BedPoint(pointer, rect, bed);
    assert Sub(p, Sub(p, offset)) == offset;
    drag.MouseUp();
    afterRelease := drag.MouseMove(pointer, rect, bed, fp);
  }
}
