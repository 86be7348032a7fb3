/** The popup placement rule of src/utils/popupPositioning.ts. */
module PopupPositioning {

  import opened Types

  /** A width and a height in pixels: the popup's footprint or the viewport's size. */
  datatype Size = Size(width: real, height: real)

  function Max(a: real, b: real): (r: real)
    ensures r >= a && r >= b && (r == a || r == b)
  {
    if a >= b then a else b
  }

  /** Placement on one axis: at the click when the popup fits between the click and the
      far edge, otherwise shifted back by the popup's extent and clamped at the near edge. */
  function AxisPlacement(click: real, extent: real, limit: real): (r: real)
  {
    if click + extent <= limit then click else Max(0.0, click - extent)
  }

  /** `calculatePopupPosition`: each axis is decided independently, first by the
      room-on-the-far-side test, then (only when shifted back) by the clamp at 0. */
  method CalculatePopupPosition(click: Position, popup: Size, viewport: Size) returns (p: Position)
    ensures p.x == AxisPlacement(click.x, popup.width, viewport.width)
    ensures p.y == AxisPlacement(click.y, popup.height, viewport.height)
  {
    var x: real;
    var y: real;

    if click.x + popup.width <= viewport.width {
      x := click.x;
    } else {
      x := click.x - popup.width;
      if x < 0.0 {
        x := 0.0;
      }
    }

    if click.y + popup.height <= viewport.height {
      y := click.y;
    } else {
      y := click.y - popup.height;
      if y < 0.0 {
        y := 0.0;
      }
    }

    p := Position(x, y);
  }

  /** The case split of one axis: the click itself when there is room, otherwise the
      shifted-back value, or 0 when that would be negative. */
  lemma AxisCases(click: real, extent: real, limit: real)
    ensures click + extent <= limit ==> AxisPlacement(click, extent, limit) == click
    ensures click + extent > limit && click - extent >= 0.0 ==>
              AxisPlacement(click, extent, limit) == click - extent
    ensures click + extent > limit && click - extent < 0.0 ==>
              AxisPlacement(click, extent, limit) == 0.0
  {
  }

  /** The shift-back branch never yields a negative coordinate, so a click at a
      non-negative coordinate gives a non-negative coordinate. */
  lemma AxisNonNegative(click: real, extent: real, limit: real)
    ensures click + extent > limit ==> AxisPlacement(click, extent, limit) >= 0.0
    ensures click >= 0.0 ==> AxisPlacement(click, extent, limit) >= 0.0
  {
  }

  /** When the popup fits in the viewport on this axis and the click lies inside it,
      the popup lies entirely inside the viewport on this axis. */
  lemma AxisWithinViewport(click: real, extent: real, limit: real)
    requires 0.0 <= extent <= limit
    requires 0.0 <= click <= limit
    ensures 0.0 <= AxisPlacement(click, extent, limit) <= limit - extent
  {
  }

  /** The popup never starts after the click on either axis. */
  lemma AxisNotPastClick(click: real, extent: real, limit: real)
    requires extent >= 0.0 && click >= 0.0
    ensures AxisPlacement(click, extent, limit) <= click
  {
  }

  /** When the popup is wider than the viewport, a single clamp is all there is:
      the popup still runs past the far edge. */
  lemma AxisOversizedOverflows(click: real, extent: real, limit: real)
    requires 0.0 <= limit < extent
    requires 0.0 <= click
    ensures AxisPlacement(click, extent, limit) + extent > limit
  {
  }

  /** Independence of the axes: the horizontal result depends on the horizontal inputs
      alone and the vertical result on the vertical inputs alone. */
  method AxesIndependent(click1: Position, popup1: Size, viewport1: Size,
                         click2: Position, popup2: Size, viewport2: Size)
    returns (p1: Position, p2: Position)
    ensures (click1.x == click2.x && popup1.width == popup2.width && viewport1.width == viewport2.width)
      ==> p1.x == p2.x
    ensures (click1.y == click2.y && popup1.height == popup2.height && viewport1.height == viewport2.height)
      ==> p1.y == p2.y
  {
    p1 := CalculatePopupPosition(click1, popup1, viewport1);
    p2 := CalculatePopupPosition(click2, popup2, viewport2);
  }

  /** The whole popup stays inside the viewport whenever it fits and the click is inside. */
  method PositionWithinViewport(click: Position, popup: Size, viewport: Size) returns (p: Position)
    requires 0.0 <= popup.width <= viewport.width && 0.0 <= popup.height <= viewport.height
    requires 0.0 <= click.x <= viewport.width && 0.0 <= click.y <= viewport.height
    ensures 0.0 <= p.x <= viewport.width - popup.width
    ensures 0.0 <= p.y <= viewport.height - popup.height
    ensures p.x <= click.x && p.y <= click.y
    ensures p.x == AxisPlacement(click.x, popup.width, viewport.width)
    ensures p.y == AxisPlacement(click.y, popup.height, viewport.height)
  {
    p := CalculatePopupPosition(click, popup, viewport);
    AxisWithinViewport(click.x, popup.width, viewport.width);
    AxisWithinViewport(click.y, popup.height, viewport.height);
    AxisNotPastClick(click.x, popup.width, viewport.width);
    AxisNotPastClick(click.y, popup.height, viewport.height);
  }

  /** Worked examples for a 256 x 200 popup in a 1000 x 800 viewport. */
  method WorkedExamples() returns (right: Position, bottom: Position, roomy: Position)
    ensures right == Position(644.0, 100.0)
    ensures bottom == Position(10.0, 550.0)
    ensures roomy == Position(10.0, 10.0)
  {
    var popup, viewport := Size(256.0, 200.0), Size(1000.0, 800.0);
    right := CalculatePopupPosition(Position(900.0, 100.0), popup, viewport);
    bottom := CalculatePopupPosition(Position(10.0, 750.0), popup, viewport);
    roomy := CalculatePopupPosition(Position(10.0, 10.0), popup, viewport);
  }
}
