/** The clamped window arithmetic of the motion detector: the depth-sampling
    region of `get_object_depth` and the box drawn around a motion point. */
module Windows {
  // Only for its Option type: the window is absent when there is no depth map.
  import Text

  /** Frame size after the resize. */
  const FrameWidth: int := 1280
  const FrameHeight: int := 720
  /** Box side bounds of the motion overlay. */
  const MinBox: int := 150
  const MaxBox: int := 300

  /** A rectangle `[xStart, xEnd) x [yStart, yEnd)` in pixel coordinates. */
  datatype Window = Window(xStart: int, xEnd: int, yStart: int, yEnd: int)

  function Max(a: int, b: int): int { if a >= b then a else b }
  function Min(a: int, b: int): int { if a <= b then a else b }

  /** The clamped bounds `get_object_depth` slices the depth map with, and
      so the region it takes the median of when `cx, cy >= -(windowSize / 2)`
      (a negative end bound would make numpy count from the far edge);
      `dims` is the depth map's (height, width), `None` when there is no
      depth map, and then there is no region either. */
  function DepthWindow(dims: Text.Option<(nat, nat)>, cx: int, cy: int, windowSize: nat): (r: Text.Option<Window>)
    ensures r.None? <==> dims.None?
    ensures r.Some? ==>
      && 0 <= r.value.xStart && r.value.xEnd <= dims.value.1
      && 0 <= r.value.yStart && r.value.yEnd <= dims.value.0
      && r.value.xEnd - r.value.xStart <= windowSize
      && r.value.yEnd - r.value.yStart <= windowSize
  {
    match dims
    case None => Text.None
    case Some((height, width)) =>
      var half := windowSize / 2;
      Text.Some(Window(Max(0, cx - half), Min(width, cx + half), Max(0, cy - half), Min(height, cy + half)))
  }

  /** For a centre inside the map and a window of at least two pixels, the
      region is non-empty and holds the centre. */
  lemma DepthWindowHoldsCentre(height: nat, width: nat, cx: int, cy: int, windowSize: nat)
    requires 0 <= cx < width && 0 <= cy < height && windowSize >= 2
    ensures var w := DepthWindow(Text.Some((height, width)), cx, cy, windowSize).value;
      w.xStart <= cx < w.xEnd && w.yStart <= cy < w.yEnd
  {
  }

  /** Away from the edges the region is the full square of side
      `windowSize` rounded down to even. */
  lemma DepthWindowInterior(height: nat, width: nat, cx: int, cy: int, windowSize: nat)
    requires windowSize / 2 <= cx && cx + windowSize / 2 <= width
    requires windowSize / 2 <= cy && cy + windowSize / 2 <= height
    ensures var w := DepthWindow(Text.Some((height, width)), cx, cy, windowSize).value;
      w.xEnd - w.xStart == 2 * (windowSize / 2) && w.yEnd - w.yStart == 2 * (windowSize / 2)
  {
  }

  /** `min(300, max(150, int(sqrt(x))))` for `x >= 0`, found by trying the
      sides from `k` down to 150. */
  function ClampedSqrtFrom(x: real, k: int): (r: int)
    requires MinBox <= k <= MaxBox
    requires k < MaxBox ==> ((k + 1) * (k + 1)) as real > x
    ensures MinBox <= r <= k
    ensures r > MinBox ==> (r * r) as real <= x
    ensures r < MaxBox ==> ((r + 1) * (r + 1)) as real > x
    decreases k
  {
    if k == MinBox || (k * k) as real <= x then k else ClampedSqrtFrom(x, k - 1)
  }

  /** The side of the box drawn around a motion point of the given area. */
  function BoxSize(area: real): (r: int)
    ensures MinBox <= r <= MaxBox
  {
    ClampedSqrtFrom(area / 10.0, MaxBox)
  }

  /** The box side is `int(sqrt(area / 10))` clamped to [150, 300]: the
      largest side whose square fits, unless that falls outside the bounds. */
  lemma BoxSizeIsClampedSqrt(area: real)
    ensures MinBox < BoxSize(area) < MaxBox ==>
      (BoxSize(area) * BoxSize(area)) as real <= area / 10.0 < ((BoxSize(area) + 1) * (BoxSize(area) + 1)) as real
    ensures BoxSize(area) == MinBox <==> area / 10.0 < (151 * 151) as real
    ensures BoxSize(area) == MaxBox <==> area / 10.0 >= (MaxBox * MaxBox) as real
  {
    var r := BoxSize(area);
    if r > MinBox {
      SquareMonotone(151, r);
    }
    if r < MaxBox {
      SquareMonotone(r + 1, MaxBox);
    }
  }

  lemma SquareMonotone(a: int, b: int)
    requires 0 <= a <= b
    ensures a * a <= b * b
  {
    assert a * a <= a * b <= b * b;
  }

  /** The rectangle drawn around a motion point, clipped to the frame. */
  function Box(cx: int, cy: int, area: real): (r: Window)
    ensures 0 <= r.xStart && r.xEnd <= FrameWidth && 0 <= r.yStart && r.yEnd <= FrameHeight
    ensures r.xEnd - r.xStart <= MaxBox && r.yEnd - r.yStart <= MaxBox
  {
    var half := BoxSize(area) / 2;
    Window(Max(0, cx - half), Min(FrameWidth, cx + half), Max(0, cy - half), Min(FrameHeight, cy + half))
  }

  /** A motion point inside the frame lies inside its box, and the box
      reaches at least 75 pixels left, right, above and below the point,
      as far as the frame leaves room. */
  lemma BoxHoldsPoint(cx: int, cy: int, area: real)
    requires 0 <= cx < FrameWidth && 0 <= cy < FrameHeight
    ensures var b := Box(cx, cy, area);
      && b.xStart <= cx < b.xEnd && b.yStart <= cy < b.yEnd
      && b.xEnd - cx >= Min(MinBox / 2, FrameWidth - cx)
      && cx - b.xStart >= Min(MinBox / 2, cx)
      && b.yEnd - cy >= Min(MinBox / 2, FrameHeight - cy)
      && cy - b.yStart >= Min(MinBox / 2, cy)
  {
  }
}
