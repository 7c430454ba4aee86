/** Integer box geometry of the mislabelled-ball filter (`area`, `intersect`, `iou`) and of
    the duplicate-field collapser (`_area`). Boxes are `(x, y, w, h)`; the overlap ratio is
    an exact real number. */
module Geometry {
  import opened Scene

  function Max(a: int, b: int): int {
    if a < b then b else a
  }

  function Min(a: int, b: int): int {
    if a < b then a else b
  }

  /** `max(0, w) * max(0, h)`: a negative width or height counts as zero. */
  function Area(b: Box): (r: int)
    ensures r >= 0
    ensures r == 0 <==> b.w <= 0 || b.h <= 0
  {
    Max(0, b.w) * Max(0, b.h)
  }

  /** The overlap width of two boxes along one axis, clamped at zero. */
  function Overlap(p: int, pw: int, q: int, qw: int): (r: int)
    ensures 0 <= r <= Max(0, pw) && r <= Max(0, qw)
  {
    Max(0, Min(p + pw, q + qw) - Max(p, q))
  }

  /** The area of the intersection of two boxes. */
  function Intersect(a: Box, b: Box): (r: int)
    ensures r >= 0
  {
    Overlap(a.x, a.w, b.x, b.w) * Overlap(a.y, a.h, b.y, b.h)
  }

  lemma MulMono(p: int, q: int, pp: int, qq: int)
    requires 0 <= p <= pp && 0 <= q <= qq
    ensures p * q <= pp * qq
  {
    assert p * q <= pp * q;
    assert pp * q <= pp * qq;
  }

  /** The intersection is symmetric and no larger than either box. */
  lemma IntersectBounds(a: Box, b: Box)
    ensures Intersect(a, b) == Intersect(b, a)
    ensures Intersect(a, b) <= Area(a) && Intersect(a, b) <= Area(b)
  {
    var iw, ih := Overlap(a.x, a.w, b.x, b.w), Overlap(a.y, a.h, b.y, b.h);
    MulMono(iw, ih, Max(0, a.w), Max(0, a.h));
    MulMono(iw, ih, Max(0, b.w), Max(0, b.h));
  }

  /** `area(a) + area(b) - intersect(a, b)`, the area of the union. */
  function Union(a: Box, b: Box): (r: int)
    ensures r >= Area(a) && r >= Area(b) && r >= Intersect(a, b)
  {
    IntersectBounds(a, b);
    Area(a) + Area(b) - Intersect(a, b)
  }

  /** A part over a positive whole lies in the unit interval. */
  lemma RatioInUnit(n: int, d: int)
    requires 0 <= n <= d && d > 0
    ensures 0.0 <= n as real / d as real <= 1.0
  {
    var q := n as real / d as real;
    assert q * d as real == n as real;
  }

  /** Intersection over union; 0 when the union is empty. */
  function IoU(a: Box, b: Box): (r: real)
    ensures 0.0 <= r <= 1.0
  {
    var inter, denom := Intersect(a, b), Union(a, b);
    if denom > 0 then RatioInUnit(inter, denom); inter as real / denom as real else 0.0
  }

  lemma IoUSymmetric(a: Box, b: Box)
    ensures IoU(a, b) == IoU(b, a)
  {
    IntersectBounds(a, b);
  }

  /** A box with positive area overlaps itself completely. */
  lemma IoUSelf(a: Box)
    requires Area(a) > 0
    ensures IoU(a, a) == 1.0
  {
    assert Intersect(a, a) == Area(a);
    assert Union(a, a) == Area(a);
    var r := Area(a) as real;
    assert r / r == 1.0;
  }

  /** Boxes that do not overlap on one axis. */
  predicate Disjoint(a: Box, b: Box) {
    || a.x + a.w <= b.x || b.x + b.w <= a.x
    || a.y + a.h <= b.y || b.y + b.h <= a.y
  }

  lemma IoUDisjoint(a: Box, b: Box)
    requires Disjoint(a, b)
    ensures Intersect(a, b) == 0 && IoU(a, b) == 0.0
  {
  }

  /** Two boxes of zero area have an empty union and an overlap ratio of 0. */
  lemma IoUDegenerate(a: Box, b: Box)
    requires Area(a) == 0 && Area(b) == 0
    ensures Union(a, b) == 0 && IoU(a, b) == 0.0
  {
    IntersectBounds(a, b);
  }
}
