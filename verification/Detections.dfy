/** Normalized detection boxes, with exact reals for the plugin's floats. */
module Detections {

  datatype Detection = Detection(
    x: real, y: real, width: real, height: real, classId: int, confidence: real)

  function Max(a: real, b: real): real { if a < b then b else a }

  function Min(a: real, b: real): real { if b < a then b else a }

  /** The box lies in the unit square and has no negative side. */
  predicate InFrame(d: Detection) {
    && 0.0 <= d.x && 0.0 <= d.width && d.x + d.width <= 1.0
    && 0.0 <= d.y && 0.0 <= d.height && d.y + d.height <= 1.0
  }

  function Overlap(a: Detection, b: Detection): real {
    var x1 := Max(a.x, b.x);
    var y1 := Max(a.y, b.y);
    var x2 := Min(a.x + a.width, b.x + b.width);
    var y2 := Min(a.y + a.height, b.y + b.height);
    Max(0.0, x2 - x1) * Max(0.0, y2 - y1)
  }

  function Area(d: Detection): real { d.width * d.height }

  function IoU(a: Detection, b: Detection): real {
    var intersection := Overlap(a, b);
    var union := Area(a) + Area(b) - intersection;
    if union <= 0.0 then 0.0 else intersection / union
  }

  lemma OverlapSymmetric(a: Detection, b: Detection)
    ensures Overlap(a, b) == Overlap(b, a)
  {
    assert Max(a.x, b.x) == Max(b.x, a.x) && Max(a.y, b.y) == Max(b.y, a.y);
  }

  lemma IoUSymmetric(a: Detection, b: Detection)
    ensures IoU(a, b) == IoU(b, a)
  {
    OverlapSymmetric(a, b);
    hide Overlap;
    hide Area;
  }

  lemma ProductMonotone(a: real, b: real, c: real, d: real)
    requires 0.0 <= a <= c && 0.0 <= b <= d
    ensures 0.0 <= a * b <= c * d
  {
    assert a * b <= c * b;
    assert c * b <= c * d;
  }

  lemma FractionAtMostOne(a: real, b: real)
    requires 0.0 <= a <= b && 0.0 < b
    ensures 0.0 <= a / b <= 1.0
  {
    assert a / b * b == a;
  }

  function SharedSide(a: real, width: real, b: real, other: real): real {
    Max(0.0, Min(a + width, b + other) - Max(a, b))
  }

  lemma SharedSideAtMost(a: real, width: real, b: real, other: real)
    requires 0.0 <= width && 0.0 <= other
    ensures 0.0 <= SharedSide(a, width, b, other) <= width && SharedSide(a, width, b, other) <= other
  {
  }

  lemma OverlapIs(a: Detection, b: Detection)
    ensures Overlap(a, b) == SharedSide(a.x, a.width, b.x, b.width) * SharedSide(a.y, a.height, b.y, b.height)
    ensures Area(a) == a.width * a.height && Area(b) == b.width * b.height
  {
    hide Max;
    hide Min;
  }

  lemma OverlapAtMostArea(a: Detection, b: Detection)
    requires 0.0 <= a.width && 0.0 <= a.height && 0.0 <= b.width && 0.0 <= b.height
    ensures 0.0 <= Overlap(a, b) <= Area(a) && Overlap(a, b) <= Area(b)
  {
    hide *;
    var w, h := SharedSide(a.x, a.width, b.x, b.width), SharedSide(a.y, a.height, b.y, b.height);
    SharedSideAtMost(a.x, a.width, b.x, b.width);
    SharedSideAtMost(a.y, a.height, b.y, b.height);
    OverlapIs(a, b);
    ProductMonotone(w, h, a.width, a.height);
    ProductMonotone(w, h, b.width, b.height);
  }

  /** For boxes without negative sides the score is a proportion, so a threshold in (0, 1) means something. */
  lemma IoURange(a: Detection, b: Detection)
    requires 0.0 <= a.width && 0.0 <= a.height && 0.0 <= b.width && 0.0 <= b.height
    ensures 0.0 <= IoU(a, b) <= 1.0
  {
    OverlapAtMostArea(a, b);
    var union := Area(a) + Area(b) - Overlap(a, b);
    if union > 0.0 {
      FractionAtMostOne(Overlap(a, b), union);
    }
  }

  /** A box with a positive area overlaps itself completely; so a positive score below one separates two boxes. */
  lemma IoUOfItself(d: Detection)
    requires 0.0 < d.width && 0.0 < d.height
    ensures IoU(d, d) == 1.0
  {
    assert Overlap(d, d) == Area(d);
    assert 0.0 < d.width * d.height;
    var area := Area(d);
    assert area / area == 1.0;
  }

  // ---- the score is shared area over joint area ------------------------------------------------------

  predicate Covers(d: Detection, px: real, py: real) {
    d.x <= px <= d.x + d.width && d.y <= py <= d.y + d.height
  }

  /** `c` covers exactly the points that both boxes cover. */
  ghost predicate IsCommonPart(a: Detection, b: Detection, c: Detection) {
    && 0.0 <= c.width && 0.0 <= c.height
    && (forall px: real, py: real :: Covers(c, px, py) <==> Covers(a, px, py) && Covers(b, px, py))
  }

  lemma CommonCorners(a: Detection, b: Detection, c: Detection)
    requires IsCommonPart(a, b, c)
    ensures c.x == Max(a.x, b.x) && c.y == Max(a.y, b.y)
    ensures c.x + c.width == Min(a.x + a.width, b.x + b.width) && c.y + c.height == Min(a.y + a.height, b.y + b.height)
  {
    assert Covers(c, c.x, c.y) && Covers(c, c.x + c.width, c.y + c.height);
    assert Covers(a, Max(a.x, b.x), c.y) && Covers(b, Max(a.x, b.x), c.y);
    assert Covers(a, c.x, Max(a.y, b.y)) && Covers(b, c.x, Max(a.y, b.y));
    assert Covers(a, Min(a.x + a.width, b.x + b.width), c.y) && Covers(b, Min(a.x + a.width, b.x + b.width), c.y);
    assert Covers(a, c.x, Min(a.y + a.height, b.y + b.height)) && Covers(b, c.x, Min(a.y + a.height, b.y + b.height));
  }

  /** Two boxes that share a point share a box. */
  lemma CommonPart(a: Detection, b: Detection, px: real, py: real) returns (c: Detection)
    requires Covers(a, px, py) && Covers(b, px, py)
    ensures IsCommonPart(a, b, c)
  {
    var x, y := Max(a.x, b.x), Max(a.y, b.y);
    c := Detection(x, y, Min(a.x + a.width, b.x + b.width) - x, Min(a.y + a.height, b.y + b.height) - y, 0, 0.0);
  }

  lemma SharedIsOverlap(a: Detection, b: Detection, c: Detection)
    requires IsCommonPart(a, b, c)
    ensures Overlap(a, b) == c.width * c.height
  {
    CommonCorners(a, b, c);
    assert 0.0 <= c.width && 0.0 <= c.height;
    hide IsCommonPart;
  }

  lemma ScoreIs(a: Detection, b: Detection, shared: real)
    requires shared == Overlap(a, b)
    ensures var joint := a.width * a.height + b.width * b.height - shared;
      if joint > 0.0 then IoU(a, b) == shared / joint else IoU(a, b) == 0.0
  {
    hide Overlap;
  }

  /** The score of two boxes that share a point is the area they share over the area they cover together. */
  lemma IoUIsSharedOverJoint(a: Detection, b: Detection, c: Detection)
    requires IsCommonPart(a, b, c)
    ensures var shared := c.width * c.height;
      var joint := a.width * a.height + b.width * b.height - shared;
      if joint > 0.0 then IoU(a, b) == shared / joint else IoU(a, b) == 0.0
  {
    hide *;
    SharedIsOverlap(a, b, c);
    ScoreIs(a, b, Overlap(a, b));
  }

  lemma NothingShared(a: Detection, b: Detection)
    requires 0.0 <= a.width && 0.0 <= a.height && 0.0 <= b.width && 0.0 <= b.height
    requires forall px: real, py: real :: !(Covers(a, px, py) && Covers(b, px, py))
    ensures Overlap(a, b) == 0.0
  {
    var x, y := Max(a.x, b.x), Max(a.y, b.y);
    assert !(Covers(a, x, y) && Covers(b, x, y));
  }

  lemma DisjointScoreZero(a: Detection, b: Detection)
    requires 0.0 <= a.width && 0.0 <= a.height && 0.0 <= b.width && 0.0 <= b.height
    requires forall px: real, py: real :: !(Covers(a, px, py) && Covers(b, px, py))
    ensures IoU(a, b) == 0.0
  {
    NothingShared(a, b);
    hide *;
    ScoreIs(a, b, 0.0);
  }
}
