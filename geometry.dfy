/** Integer cell geometry: sizes, points, rectangles and measurement
    constraints (Sources/SwiftCursesKit/Scene/Geometry.swift). */
module Geometry {

  /** Swift's Int.max on 64-bit platforms, the default maximum of a constraint. */
  const IntMax: int := 0x7FFF_FFFF_FFFF_FFFF

  function Max(a: int, b: int): (r: int)
    ensures r >= a && r >= b && (r == a || r == b)
  {
    if a < b then b else a
  }

  function Min(a: int, b: int): (r: int)
    ensures r <= a && r <= b && (r == a || r == b)
  {
    if a < b then a else b
  }

  /** A size in cells; both extents are never negative. */
  datatype Size = Size(width: nat, height: nat)

  /** A cell position; coordinates may be negative. */
  datatype Point = Point(x: int, y: int)

  datatype Rect = Rect(origin: Point, size: Size) {
    function MinX(): int { origin.x }
    function MinY(): int { origin.y }
    function MaxX(): (r: int)
      ensures r >= MinX() && r - MinX() == size.width
    { origin.x + size.width }
    function MaxY(): (r: int)
      ensures r >= MinY() && r - MinY() == size.height
    { origin.y + size.height }
  }

  datatype Constraints = Constraints(minWidth: int, minHeight: int, maxWidth: int, maxHeight: int) {
    /** Each extent is raised to the minimum, then lowered to the maximum,
        then floored at zero by the size initialiser. */
    function Clamped(s: Size): (r: Size)
      ensures r.width <= Max(0, maxWidth) && r.height <= Max(0, maxHeight)
      ensures minWidth <= maxWidth ==> Max(0, minWidth) <= r.width
      ensures minHeight <= maxHeight ==> Max(0, minHeight) <= r.height
      ensures minWidth <= maxWidth ==> (r.width == s.width || r.width == Max(0, minWidth) || r.width == Max(0, maxWidth))
      ensures minHeight <= maxHeight ==> (r.height == s.height || r.height == Max(0, minHeight) || r.height == Max(0, maxHeight))
    {
      MakeSize(Min(maxWidth, Max(minWidth, s.width)), Min(maxHeight, Max(minHeight, s.height)))
    }
  }

  /** LayoutSize(width:height:): negative extents become zero. */
  function MakeSize(width: int, height: int): (s: Size)
    ensures s.width >= width && s.height >= height
    ensures width >= 0 ==> s.width == width
    ensures height >= 0 ==> s.height == height
    ensures width < 0 ==> s.width == 0
    ensures height < 0 ==> s.height == 0
  {
    Size(if width < 0 then 0 else width, if height < 0 then 0 else height)
  }

  const ZeroSize: Size := Size(0, 0)
  const ZeroPoint: Point := Point(0, 0)

  /** LayoutConstraints() with every argument defaulted. */
  const DefaultConstraints: Constraints := Constraints(0, 0, IntMax, IntMax)

  /** With a consistent envelope on both axes, clamping lands inside it. */
  lemma ClampedWithinEnvelope(c: Constraints, s: Size)
    requires 0 <= c.minWidth <= c.maxWidth && 0 <= c.minHeight <= c.maxHeight
    ensures c.minWidth <= c.Clamped(s).width <= c.maxWidth
    ensures c.minHeight <= c.Clamped(s).height <= c.maxHeight
    ensures c.minWidth <= s.width <= c.maxWidth ==> c.Clamped(s).width == s.width
    ensures c.minHeight <= s.height <= c.maxHeight ==> c.Clamped(s).height == s.height
  {
  }

  /** Clamping twice is clamping once, even for an inconsistent envelope. */
  lemma ClampedIdempotent(c: Constraints, s: Size)
    ensures c.Clamped(c.Clamped(s)) == c.Clamped(s)
  {
  }

  /** The default envelope leaves every size that fits a 64-bit Int unchanged. */
  lemma DefaultConstraintsKeepSize(s: Size)
    requires s.width <= IntMax && s.height <= IntMax
    ensures DefaultConstraints.Clamped(s) == s
  {
  }
}
