/**
 * The detector's post-processing: score filter, box decoding, sort by confidence and class-aware
 * non-maximum suppression (NMS).
 */
module YoloDetector {
  import opened Detections
  import opened Seqs

  /** One model output: `4 + numClasses` rows of `numOutputs` values, and how the frame was letterboxed. */
  datatype Frame = Frame(
    output: seq<real>, numOutputs: nat, numClasses: nat,
    width: int, height: int, scale: real, padX: real, padY: real)
  {
    ghost predicate Valid() {
      && |output| == (4 + numClasses) * numOutputs
      && 0 < width && 0 < height && 0.0 < scale
    }

    function Cell(row: nat, i: nat): real
      requires Valid() && row < 4 + numClasses && i < numOutputs
    {
      RowInRange(row, i, 4 + numClasses, numOutputs);
      output[row * numOutputs + i]
    }

    function Score(c: nat, i: nat): real
      requires Valid() && c < numClasses && i < numOutputs
    {
      Cell(4 + c, i)
    }
  }

  lemma RowInRange(row: nat, i: nat, rows: nat, columns: nat)
    requires row < rows && i < columns
    ensures row * columns + i < rows * columns
  {
    assert (row + 1) * columns <= rows * columns;
  }

  // ---- best class of one output column ---------------------------------------------------------

  /** The highest positive score among the first `k` classes and the first class that has it. */
  function Best(f: Frame, k: nat, i: nat): (r: (int, real))
    requires f.Valid() && k <= f.numClasses && i < f.numOutputs
  {
    if k == 0 then (-1, 0.0)
    else
      var (c, score) := Best(f, k - 1, i);
      if f.Score(k - 1, i) > score then (k - 1, f.Score(k - 1, i)) else (c, score)
  }

  /** What the scan finds: no class when no score is positive, else the lowest class with the top score. */
  lemma {:induction false} BestIsFirstMaximum(f: Frame, k: nat, i: nat)
    requires f.Valid() && k <= f.numClasses && i < f.numOutputs
    ensures var (cls, score) := Best(f, k, i);
            if forall c: nat | c < k :: f.Score(c, i) <= 0.0 then cls == -1 && score == 0.0
            else
              && 0 <= cls < k && score == f.Score(cls, i) && score > 0.0
              && (forall c: nat | c < k :: f.Score(c, i) <= score)
              && (forall c: nat | c < cls :: f.Score(c, i) < score)
  {
    if k > 0 {
      BestIsFirstMaximum(f, k - 1, i);
    }
  }

  // ---- decoding --------------------------------------------------------------------------------

  /** Removes the letterbox, scales back and clamps to the unit square. */
  function Decode(f: Frame, i: nat): Detection
    requires f.Valid() && i < f.numOutputs
  {
    var (cls, score) := Best(f, f.numClasses, i);
    var cx, cy, w, h := f.Cell(0, i), f.Cell(1, i), f.Cell(2, i), f.Cell(3, i);
    var origX := (cx - w / 2.0 - f.padX) / f.scale;
    var origY := (cy - h / 2.0 - f.padY) / f.scale;
    var origW := w / f.scale;
    var origH := h / f.scale;
    var x := Max(0.0, Min(1.0, origX / f.width as real));
    var y := Max(0.0, Min(1.0, origY / f.height as real));
    Detection(x, y,
              Max(0.0, Min(1.0 - x, origW / f.width as real)),
              Max(0.0, Min(1.0 - y, origH / f.height as real)),
              cls, score)
  }

  /** Whatever the model returned, a decoded box stays inside the frame. */
  lemma DecodeInFrame(f: Frame, i: nat)
    requires f.Valid() && i < f.numOutputs
    ensures InFrame(Decode(f, i))
  {
  }

  function Candidates(f: Frame, n: nat, floor: real): seq<Detection>
    requires f.Valid() && n <= f.numOutputs
  {
    if n == 0 then []
    else
      Candidates(f, n - 1, floor)
      + if Decode(f, n - 1).confidence < floor then [] else [Decode(f, n - 1)]
  }

  function Reaches(floor: real): Detection -> bool {
    (d: Detection) => d.confidence >= floor
  }

  function AtLeast(s: seq<Detection>, floor: real): seq<Detection> {
    Filter(Reaches(floor), s)
  }

  /** The candidates of the higher floor are the ones of the lower floor that reach it, in the same order. */
  lemma {:induction false} CandidatesAbove(f: Frame, n: nat, lo: real, hi: real)
    requires f.Valid() && n <= f.numOutputs && lo <= hi
    ensures Candidates(f, n, hi) == AtLeast(Candidates(f, n, lo), hi)
  {
    if n > 0 {
      hide Decode;
      var d := Decode(f, n - 1);
      OneAbove(d, lo, hi);
      FilterAppend(Reaches(hi), Candidates(f, n - 1, lo), if d.confidence < lo then [] else [d]);
      hide Filter;
      CandidatesAbove(f, n - 1, lo, hi);
    }
  }

  lemma OneAbove(d: Detection, lo: real, hi: real)
    requires lo <= hi
    ensures Filter(Reaches(hi), if d.confidence < lo then [] else [d]) == if d.confidence < hi then [] else [d]
  {
  }

  // ---- where a decoded box lies ----------------------------------------------------------------

  function Clamp(low: real, v: real, high: real): real {
    Max(low, Min(high, v))
  }

  /**
   * Column `i` holds the box with this corner and size, in parts of the frame: its centre and size in pixels, scaled
   * and moved as the letterbox does.
   */
  ghost predicate Holds(f: Frame, i: nat, x: real, y: real, width: real, height: real)
    requires f.Valid() && i < f.numOutputs
  {
    var n := f.numOutputs;
    RowInRange(0, i, 4 + f.numClasses, n);
    RowInRange(1, i, 4 + f.numClasses, n);
    RowInRange(2, i, 4 + f.numClasses, n);
    RowInRange(3, i, 4 + f.numClasses, n);
    && f.output[i] == (x + width / 2.0) * f.width as real * f.scale + f.padX
    && f.output[n + i] == (y + height / 2.0) * f.height as real * f.scale + f.padY
    && f.output[2 * n + i] == width * f.width as real * f.scale
    && f.output[3 * n + i] == height * f.height as real * f.scale
  }

  /** One edge of a decoded box before it is clamped. */
  function Edge(centre: real, size: real, pad: real, scale: real, frame: real): real
    requires scale > 0.0 && frame > 0.0
  {
    (centre - size / 2.0 - pad) / scale / frame
  }

  function Side(size: real, scale: real, frame: real): real
    requires scale > 0.0 && frame > 0.0
  {
    size / scale / frame
  }

  lemma Unscaled(corner: real, size: real, frame: real, scale: real, pad: real)
    requires frame > 0.0 && scale > 0.0
    ensures Side(size * frame * scale, scale, frame) == size
    ensures Edge((corner + size / 2.0) * frame * scale + pad, size * frame * scale, pad, scale, frame) == corner
  {
    assert size * frame * scale / scale == size * frame;
    assert size * frame / frame == size;
    var centre := (corner + size / 2.0) * frame * scale;
    assert centre == corner * frame * scale + size / 2.0 * frame * scale;
    assert size * frame * scale / 2.0 == size / 2.0 * frame * scale;
    assert centre + pad - size * frame * scale / 2.0 - pad == corner * frame * scale;
    assert corner * frame * scale / scale == corner * frame;
    assert corner * frame / frame == corner;
  }

  lemma DecodeAxes(f: Frame, i: nat)
    requires f.Valid() && i < f.numOutputs
    ensures var d := Decode(f, i);
      && d.x == Clamp(0.0, Edge(f.Cell(0, i), f.Cell(2, i), f.padX, f.scale, f.width as real), 1.0)
      && d.width == Max(0.0, Min(1.0 - d.x, Side(f.Cell(2, i), f.scale, f.width as real)))
      && d.y == Clamp(0.0, Edge(f.Cell(1, i), f.Cell(3, i), f.padY, f.scale, f.height as real), 1.0)
      && d.height == Max(0.0, Min(1.0 - d.y, Side(f.Cell(3, i), f.scale, f.height as real)))
  {
  }

  lemma AxisUndone(corner: real, size: real, frame: real, scale: real, pad: real,
                   centre: real, extent: real, low: real, side: real)
    requires frame > 0.0 && scale > 0.0
    requires centre == (corner + size / 2.0) * frame * scale + pad && extent == size * frame * scale
    requires low == Clamp(0.0, Edge(centre, extent, pad, scale, frame), 1.0)
    requires side == Max(0.0, Min(1.0 - low, Side(extent, scale, frame)))
    ensures low == Clamp(0.0, corner, 1.0) && side == Max(0.0, Min(1.0 - low, size))
    ensures 0.0 <= corner && 0.0 <= size && corner + size <= 1.0 ==> low == corner && side == size
  {
    Unscaled(corner, size, frame, scale, pad);
    hide Edge;
    hide Side;
  }

  lemma CellsHeld(f: Frame, i: nat, x: real, y: real, width: real, height: real)
    requires f.Valid() && i < f.numOutputs && Holds(f, i, x, y, width, height)
    ensures f.Cell(0, i) == (x + width / 2.0) * f.width as real * f.scale + f.padX
    ensures f.Cell(1, i) == (y + height / 2.0) * f.height as real * f.scale + f.padY
    ensures f.Cell(2, i) == width * f.width as real * f.scale
    ensures f.Cell(3, i) == height * f.height as real * f.scale
  {
    assert 0 * f.numOutputs + i == i && 1 * f.numOutputs + i == f.numOutputs + i;
  }

  /** Decoding undoes the letterbox: the box comes out where it was, moved into the unit square where it sticks out. */
  lemma DecodeUndoesLetterbox(f: Frame, i: nat, x: real, y: real, width: real, height: real)
    requires f.Valid() && i < f.numOutputs && Holds(f, i, x, y, width, height)
    ensures var d := Decode(f, i);
      && d.x == Clamp(0.0, x, 1.0) && d.width == Max(0.0, Min(1.0 - d.x, width))
      && d.y == Clamp(0.0, y, 1.0) && d.height == Max(0.0, Min(1.0 - d.y, height))
    ensures 0.0 <= x && 0.0 <= width && x + width <= 1.0 ==> Decode(f, i).x == x && Decode(f, i).width == width
    ensures 0.0 <= y && 0.0 <= height && y + height <= 1.0 ==> Decode(f, i).y == y && Decode(f, i).height == height
  {
    var d := Decode(f, i);
    DecodeAxes(f, i);
    CellsHeld(f, i, x, y, width, height);
    hide *;
    AxisUndone(x, width, f.width as real, f.scale, f.padX, f.Cell(0, i), f.Cell(2, i), d.x, d.width);
    AxisUndone(y, height, f.height as real, f.scale, f.padY, f.Cell(1, i), f.Cell(3, i), d.y, d.height);
  }

  lemma Rescaled(v: real, frame: real, scale: real)
    requires frame > 0.0 && scale > 0.0
    ensures v / (frame * scale) * frame * scale == v
  {
    var p := frame * scale;
    assert p > 0.0;
    assert v / p * p == v;
    assert v / p * frame * scale == v / p * (frame * scale);
  }

  /** Whatever the model returned, each column holds some box. */
  lemma EveryColumnHoldsABox(f: Frame, i: nat) returns (x: real, y: real, width: real, height: real)
    requires f.Valid() && i < f.numOutputs
    ensures Holds(f, i, x, y, width, height)
  {
    var n := f.numOutputs;
    RowInRange(0, i, 4 + f.numClasses, n);
    RowInRange(1, i, 4 + f.numClasses, n);
    RowInRange(2, i, 4 + f.numClasses, n);
    RowInRange(3, i, 4 + f.numClasses, n);
    var w, h, scale := f.width as real, f.height as real, f.scale;
    assert w * scale > 0.0 && h * scale > 0.0;
    width, height := f.output[2 * n + i] / (w * scale), f.output[3 * n + i] / (h * scale);
    x := (f.output[i] - f.padX) / (w * scale) - width / 2.0;
    y := (f.output[n + i] - f.padY) / (h * scale) - height / 2.0;
    Rescaled(f.output[2 * n + i], w, scale);
    Rescaled(f.output[3 * n + i], h, scale);
    Rescaled(f.output[i] - f.padX, w, scale);
    Rescaled(f.output[n + i] - f.padY, h, scale);
    assert x + width / 2.0 == (f.output[i] - f.padX) / (w * scale);
    assert y + height / 2.0 == (f.output[n + i] - f.padY) / (h * scale);
  }

  /** The class scores of column `i`, as the model returned them. */
  function ScoreOf(f: Frame, c: nat, i: nat): real
    requires f.Valid() && c < f.numClasses && i < f.numOutputs
  {
    RowInRange(4 + c, i, 4 + f.numClasses, f.numOutputs);
    f.output[(4 + c) * f.numOutputs + i]
  }

  /** A decoded box has the first class of the highest positive score, and that score. */
  lemma DecodedClass(f: Frame, i: nat)
    requires f.Valid() && i < f.numOutputs
    ensures var d := Decode(f, i);
      if forall c: nat | c < f.numClasses :: ScoreOf(f, c, i) <= 0.0 then d.classId == -1 && d.confidence == 0.0
      else
        && 0 <= d.classId < f.numClasses && d.confidence == ScoreOf(f, d.classId, i) > 0.0
        && (forall c: nat | c < f.numClasses :: ScoreOf(f, c, i) <= d.confidence)
        && (forall c: nat | c < d.classId :: ScoreOf(f, c, i) < d.confidence)
  {
    BestIsFirstMaximum(f, f.numClasses, i);
    assert forall c: nat | c < f.numClasses :: f.Score(c, i) == ScoreOf(f, c, i);
    hide Best;
  }

  /** The columns whose score reaches the floor, in order: each gives one candidate. */
  function Reaching(f: Frame, n: nat, floor: real): seq<nat>
    requires f.Valid() && n <= f.numOutputs
  {
    if n == 0 then []
    else Reaching(f, n - 1, floor) + if Best(f, f.numClasses, n - 1).1 >= floor then [n - 1] else []
  }

  lemma {:induction false} CandidatesAreColumns(f: Frame, n: nat, floor: real)
    requires f.Valid() && n <= f.numOutputs
    ensures var columns := Reaching(f, n, floor);
      && |Candidates(f, n, floor)| == |columns|
      && (forall k | 0 <= k < |columns| :: columns[k] < n && Candidates(f, n, floor)[k] == Decode(f, columns[k]))
  {
    if n > 0 {
      CandidatesAreColumns(f, n - 1, floor);
    }
  }

  // ---- suppression: specification --------------------------------------------------------------

  predicate Suppresses(a: Detection, b: Detection, threshold: real) {
    a.classId == b.classId && IoU(a, b) > threshold
  }

  /** A box is kept when no kept box before it suppresses it. */
  predicate Kept(s: seq<Detection>, i: nat, threshold: real)
    requires i < |s|
    decreases i
  {
    forall j | 0 <= j < i :: Kept(s, j, threshold) ==> !Suppresses(s[j], s[i], threshold)
  }

  function Survivors(s: seq<Detection>, n: nat, threshold: real): seq<Detection>
    requires n <= |s|
  {
    if n == 0 then []
    else Survivors(s, n - 1, threshold) + if Kept(s, n - 1, threshold) then [s[n - 1]] else []
  }

  function Nms(s: seq<Detection>, threshold: real): seq<Detection> {
    Survivors(s, |s|, threshold)
  }

  predicate SortedByConfidence(s: seq<Detection>) {
    forall i, j | 0 <= i < j < |s| :: s[i].confidence >= s[j].confidence
  }

  /** `order` is what a sort by falling confidence may return; std::sort leaves the order of ties open. */
  predicate IsSortOf(s: seq<Detection>, order: seq<Detection>) {
    SortedByConfidence(order) && multiset(order) == multiset(s)
  }

  // ---- suppression: what the kept set is -------------------------------------------------------

  /**
   * A selection of positions of `s`: no kept pair of one class overlaps too much, and each dropped box is suppressed by
   * an earlier kept one.
   */
  ghost predicate IsGreedySelection(s: seq<Detection>, kept: set<nat>, threshold: real) {
    && (forall i | i in kept :: i < |s|)
    && (forall i, j | i in kept && j in kept && i < j :: s[i].classId == s[j].classId ==> IoU(s[i], s[j]) <= threshold)
    && (forall i: nat | i < |s| && i !in kept ::
          exists j :: j in kept && j < i && s[j].classId == s[i].classId && IoU(s[j], s[i]) > threshold)
  }

  ghost function KeptSet(s: seq<Detection>, threshold: real): set<nat> {
    set i: nat | i < |s| && Kept(s, i, threshold)
  }

  /** The kept set is independent and maximal, and it is the only such selection. */
  lemma {:induction false} KeptSetIsTheGreedySelection(s: seq<Detection>, kept: set<nat>, threshold: real)
    ensures IsGreedySelection(s, kept, threshold) <==> kept == KeptSet(s, threshold)
  {
    if IsGreedySelection(s, kept, threshold) {
      GreedyAgrees(s, kept, threshold, |s|);
      assert kept == KeptSet(s, threshold);
    }
    forall i: nat | i < |s| && !Kept(s, i, threshold)
      ensures exists j :: j in KeptSet(s, threshold) && j < i && Suppresses(s[j], s[i], threshold)
    {
      var j: nat :| j < i && Kept(s, j, threshold) && Suppresses(s[j], s[i], threshold);
      assert j in KeptSet(s, threshold);
    }
  }

  lemma {:induction false} GreedyAgrees(s: seq<Detection>, kept: set<nat>, threshold: real, n: nat)
    requires n <= |s| && IsGreedySelection(s, kept, threshold)
    ensures forall i: nat | i < n :: i in kept <==> Kept(s, i, threshold)
  {
    if n > 0 {
      GreedyAgrees(s, kept, threshold, n - 1);
    }
  }

  /** A dropped box is suppressed by a kept box of its class whose confidence is at least its own. */
  lemma DroppedByAStrongerBox(s: seq<Detection>, i: nat, threshold: real)
    requires i < |s| && SortedByConfidence(s) && !Kept(s, i, threshold)
    ensures exists j: nat ::
              && j < i && Kept(s, j, threshold) && s[j].classId == s[i].classId
              && s[j].confidence >= s[i].confidence && IoU(s[j], s[i]) > threshold
  {
    var j: nat :| j < i && Kept(s, j, threshold) && Suppresses(s[j], s[i], threshold);
    assert s[j].confidence >= s[i].confidence;
  }

  // ---- suppression: the confidence floor -------------------------------------------------------

  lemma {:induction false} KeptInPrefix(s: seq<Detection>, n: nat, i: nat, threshold: real)
    requires i < n <= |s|
    ensures Kept(s[..n], i, threshold) == Kept(s, i, threshold)
    decreases i
  {
    forall j: nat | j < i
      ensures Kept(s[..n], j, threshold) == Kept(s, j, threshold)
    {
      KeptInPrefix(s, n, j, threshold);
    }
  }

  lemma {:induction false} SurvivorsOfPrefix(s: seq<Detection>, n: nat, m: nat, threshold: real)
    requires m <= n <= |s|
    ensures Survivors(s[..n], m, threshold) == Survivors(s, m, threshold)
  {
    if m > 0 {
      SurvivorsOfPrefix(s, n, m - 1, threshold);
      KeptInPrefix(s, n, m - 1, threshold);
    }
  }

  ghost predicate SplitsAt(s: seq<Detection>, n: nat, floor: real) {
    && n <= |s|
    && (forall i | 0 <= i < n :: s[i].confidence >= floor)
    && (forall i | n <= i < |s| :: s[i].confidence < floor)
  }

  lemma {:induction false} SortedSplits(s: seq<Detection>, floor: real) returns (n: nat)
    requires SortedByConfidence(s)
    ensures SplitsAt(s, n, floor)
  {
    n := 0;
    while n < |s| && s[n].confidence >= floor
      invariant n <= |s| && forall i | 0 <= i < n :: s[i].confidence >= floor
    {
      n := n + 1;
    }
  }

  /** In a sorted sequence the boxes that reach `floor` are a prefix. */
  lemma AtLeastIsPrefix(s: seq<Detection>, n: nat, floor: real)
    requires SplitsAt(s, n, floor)
    ensures AtLeast(s, floor) == s[..n]
  {
    assert s == s[..n] + s[n..];
    FilterAppend(Reaches(floor), s[..n], s[n..]);
    AtLeastAll(s[..n], floor);
    AtLeastNone(s[n..], floor);
  }

  ghost predicate AllReach(s: seq<Detection>, floor: real) {
    forall i | 0 <= i < |s| :: s[i].confidence >= floor
  }

  lemma AtLeastAll(s: seq<Detection>, floor: real)
    requires AllReach(s, floor)
    ensures AtLeast(s, floor) == s
  {
    FilterAll(Reaches(floor), s);
  }

  lemma AtLeastNone(s: seq<Detection>, floor: real)
    requires forall i | 0 <= i < |s| :: s[i].confidence < floor
    ensures AtLeast(s, floor) == []
  {
    FilterNone(Reaches(floor), s);
  }

  lemma {:induction false} SurvivorsAbove(s: seq<Detection>, n: nat, m: nat, floor: real, threshold: real)
    requires n <= m <= |s| && SplitsAt(s, n, floor)
    ensures AtLeast(Survivors(s, m, threshold), floor) == Survivors(s, n, threshold)
    decreases m
  {
    hide Kept;
    if m > n {
      SurvivorsAbove(s, n, m - 1, floor, threshold);
      var last := if Kept(s, m - 1, threshold) then [s[m - 1]] else [];
      FilterAppend(Reaches(floor), Survivors(s, m - 1, threshold), last);
      AtLeastNone(last, floor);
    } else {
      SurvivorsReach(s, n, floor, threshold);
      AtLeastAll(Survivors(s, n, threshold), floor);
    }
  }

  lemma {:induction false} SurvivorsReach(s: seq<Detection>, n: nat, floor: real, threshold: real)
    requires n <= |s| && forall i | 0 <= i < n :: s[i].confidence >= floor
    ensures AllReach(Survivors(s, n, threshold), floor)
  {
    hide Kept;
    if n > 0 {
      SurvivorsReach(s, n - 1, floor, threshold);
      assert s[n - 1].confidence >= floor;
    }
  }

  // ---- suppression: the order of ties ----------------------------------------------------------

  function Scores(v: real): Detection -> bool {
    (d: Detection) => d.confidence == v
  }

  /** The boxes of one confidence, in their order. */
  function Ties(s: seq<Detection>, v: real): seq<Detection> {
    Filter(Scores(v), s)
  }

  ghost predicate SameTies(a: seq<Detection>, b: seq<Detection>) {
    forall v: real :: Ties(a, v) == Ties(b, v)
  }

  /** Boxes of one confidence, if it is at least `hi`, stand in the same order in the two sorts. */
  ghost predicate SameTieOrder(orderLo: seq<Detection>, orderHi: seq<Detection>, hi: real) {
    forall v: real | v >= hi :: Ties(orderLo, v) == Ties(orderHi, v)
  }

  lemma LastTie(s: seq<Detection>, v: real)
    requires s != []
    ensures var front, last := s[..|s| - 1], s[|s| - 1];
      Ties(s, v) == Ties(front, v) + if last.confidence == v then [last] else []
  {
  }

  lemma LastIsLowest(s: seq<Detection>, v: real)
    requires s != [] && SortedByConfidence(s) && Ties(s, v) != []
    ensures s[|s| - 1].confidence <= v
  {
    assert Ties(s, v)[0] in Ties(s, v);
    var i :| 0 <= i < |s| && s[i] == Ties(s, v)[0];
    assert s[i].confidence >= s[|s| - 1].confidence;
  }

  /** A sorted sequence is determined by how its ties are ordered. */
  lemma {:induction false} TiesDecide(a: seq<Detection>, b: seq<Detection>)
    requires SortedByConfidence(a) && SortedByConfidence(b) && SameTies(a, b)
    ensures a == b
    decreases |a|
  {
    if a == [] {
      if b != [] {
        LastTie(b, b[|b| - 1].confidence);
      }
    } else {
      var v := a[|a| - 1].confidence;
      LastTie(a, v);
      assert Ties(b, v) == Ties(a, v) != [];
      assert b != [];
      var w := b[|b| - 1].confidence;
      LastTie(b, w);
      assert Ties(a, w) == Ties(b, w) != [];
      LastIsLowest(a, w);
      LastIsLowest(b, v);
      SameLast(a, b);
    }
  }

  /** Without their last, equally confident boxes the two still have the same ties. */
  lemma FrontTies(a: seq<Detection>, b: seq<Detection>)
    requires a != [] && b != [] && a[|a| - 1].confidence == b[|b| - 1].confidence && SameTies(a, b)
    ensures a[|a| - 1] == b[|b| - 1] && SameTies(a[..|a| - 1], b[..|b| - 1])
  {
    var v := a[|a| - 1].confidence;
    var x, y := a[..|a| - 1], b[..|b| - 1];
    LastTie(a, v);
    LastTie(b, v);
    assert Ties(a, v)[|Ties(a, v)| - 1] == a[|a| - 1] && Ties(b, v)[|Ties(b, v)| - 1] == b[|b| - 1];
    forall u: real
      ensures Ties(x, u) == Ties(y, u)
    {
      LastTie(a, u);
      LastTie(b, u);
      hide Ties;
      assert Ties(x, u) == if u == v then Ties(a, u)[..|Ties(a, u)| - 1] else Ties(a, u);
      assert Ties(y, u) == if u == v then Ties(b, u)[..|Ties(b, u)| - 1] else Ties(b, u);
    }
  }

  lemma SameLast(a: seq<Detection>, b: seq<Detection>)
    requires SortedByConfidence(a) && SortedByConfidence(b) && SameTies(a, b)
    requires a != [] && b != [] && a[|a| - 1].confidence == b[|b| - 1].confidence
    ensures a == b
    decreases |a|, 0
  {
    FrontTies(a, b);
    var x, y := a[..|a| - 1], b[..|b| - 1];
    assert a == x + [a[|a| - 1]] && b == y + [b[|b| - 1]];
    hide Ties;
    TiesDecide(x, y);
  }

  lemma {:induction false} TiesAbove(s: seq<Detection>, hi: real, v: real)
    ensures Ties(AtLeast(s, hi), v) == if v >= hi then Ties(s, v) else []
  {
    if s != [] {
      var front, last := s[..|s| - 1], s[|s| - 1];
      TiesAbove(front, hi, v);
      LastTie(s, v);
      if last.confidence >= hi {
        assert AtLeast(s, hi) == AtLeast(front, hi) + [last];
        LastTie(AtLeast(s, hi), v);
        assert AtLeast(s, hi)[..|AtLeast(s, hi)| - 1] == AtLeast(front, hi);
      } else {
        assert AtLeast(s, hi) == AtLeast(front, hi);
      }
      hide Ties;
      hide AtLeast;
    }
  }

  /** Two sorts of the candidates of two floors that order ties alike put the same boxes above the higher floor. */
  lemma SameTiesSamePrefix(
    f: Frame, lo: real, hi: real, orderLo: seq<Detection>, orderHi: seq<Detection>)
    requires f.Valid() && lo <= hi
    requires IsSortOf(Candidates(f, f.numOutputs, lo), orderLo)
    requires IsSortOf(Candidates(f, f.numOutputs, hi), orderHi)
    ensures SameTieOrder(orderLo, orderHi, hi) <==> AtLeast(orderLo, hi) == orderHi
  {
    var n := SortedSplits(orderLo, hi);
    AtLeastIsPrefix(orderLo, n, hi);
    var above := AtLeast(orderLo, hi);
    AllAbove(f, hi, orderHi);
    AtLeastAll(orderHi, hi);
    hide Ties;
    hide AtLeast;
    forall v: real
      ensures Ties(above, v) == if v >= hi then Ties(orderLo, v) else []
      ensures v < hi ==> Ties(orderHi, v) == []
    {
      TiesAbove(orderLo, hi, v);
      TiesAbove(orderHi, hi, v);
    }
    if SameTieOrder(orderLo, orderHi, hi) {
      TiesDecide(above, orderHi);
    }
  }

  lemma AllAbove(f: Frame, hi: real, order: seq<Detection>)
    requires f.Valid() && IsSortOf(Candidates(f, f.numOutputs, hi), order)
    ensures AllReach(order, hi)
  {
    CandidatesAbove(f, f.numOutputs, hi, hi);
    forall i | 0 <= i < |order|
      ensures order[i].confidence >= hi
    {
      assert order[i] in multiset(order);
      assert order[i] in AtLeast(Candidates(f, f.numOutputs, hi), hi);
    }
  }

  /**
   * Lowering the confidence floor is invisible above it: if the two sorts order ties alike, what the lower
   * floor reports at or above `hi` is exactly what a floor of `hi` reports.
   */
  lemma LowerFloorIsInvisible(
    f: Frame, lo: real, hi: real, orderLo: seq<Detection>, orderHi: seq<Detection>, threshold: real)
    requires f.Valid() && lo <= hi
    requires IsSortOf(Candidates(f, f.numOutputs, lo), orderLo)
    requires IsSortOf(Candidates(f, f.numOutputs, hi), orderHi)
    requires SameTieOrder(orderLo, orderHi, hi)
    ensures AtLeast(Nms(orderLo, threshold), hi) == Nms(orderHi, threshold)
  {
    SameTiesSamePrefix(f, lo, hi, orderLo, orderHi);
    var n := SortedSplits(orderLo, hi);
    AtLeastIsPrefix(orderLo, n, hi);
    SurvivorsAbove(orderLo, n, |orderLo|, hi, threshold);
    SurvivorsOfPrefix(orderLo, n, n, threshold);
  }

  /** When no two boxes at or above `hi` tie, every sort agrees on their order. */
  lemma DistinctConfidencesHaveOneOrder(
    f: Frame, lo: real, hi: real, orderLo: seq<Detection>, orderHi: seq<Detection>)
    requires f.Valid() && lo <= hi
    requires IsSortOf(Candidates(f, f.numOutputs, lo), orderLo)
    requires IsSortOf(Candidates(f, f.numOutputs, hi), orderHi)
    requires forall i, j | 0 <= i < j < |orderHi| :: orderHi[i].confidence != orderHi[j].confidence
    ensures SameTieOrder(orderLo, orderHi, hi)
  {
    var n := SortedSplits(orderLo, hi);
    AtLeastIsPrefix(orderLo, n, hi);
    var above := AtLeast(orderLo, hi);
    CandidatesAbove(f, f.numOutputs, lo, hi);
    forall d: Detection
      ensures multiset(above)[d] == multiset(orderHi)[d]
    {
      FilterMultiset(Reaches(hi), orderLo, d);
      FilterMultiset(Reaches(hi), Candidates(f, f.numOutputs, lo), d);
    }
    assert multiset(above) == multiset(orderHi);
    OneSortedOrder(orderHi, above);
    SameTiesSamePrefix(f, lo, hi, orderLo, orderHi);
  }

  lemma Position(s: seq<Detection>, d: Detection) returns (i: nat)
    requires d in multiset(s)
    ensures i < |s| && s[i] == d
  {
    assert d in s;
    i :| i < |s| && s[i] == d;
  }

  lemma SameHead(a: seq<Detection>, b: seq<Detection>)
    requires SortedByConfidence(a) && SortedByConfidence(b) && multiset(a) == multiset(b) && a != [] && b != []
    requires forall i, j | 0 <= i < j < |a| :: a[i].confidence != a[j].confidence
    ensures a[0] == b[0]
  {
    assert a[0] in multiset(a) && b[0] in multiset(b);
    var i := Position(a, b[0]);
    var j := Position(b, a[0]);
    assert a[0].confidence == b[0].confidence;
    assert i == 0;
  }

  lemma TailMultiset(s: seq<Detection>)
    requires s != []
    ensures multiset(s[1..]) == multiset(s) - multiset{s[0]}
  {
    assert s == [s[0]] + s[1..];
  }

  lemma {:induction false} OneSortedOrder(a: seq<Detection>, b: seq<Detection>)
    requires SortedByConfidence(a) && SortedByConfidence(b) && multiset(a) == multiset(b)
    requires forall i, j | 0 <= i < j < |a| :: a[i].confidence != a[j].confidence
    ensures a == b
    decreases |a|
  {
    SameLength(a, b);
    if a != [] {
      SameHead(a, b);
      TailMultiset(a);
      TailMultiset(b);
      TailSorted(a);
      TailSorted(b);
      hide SortedByConfidence;
      OneSortedOrder(a[1..], b[1..]);
      assert a == [a[0]] + a[1..] && b == [b[0]] + b[1..];
    }
  }

  lemma SameLength(a: seq<Detection>, b: seq<Detection>)
    requires multiset(a) == multiset(b)
    ensures |a| == |b|
  {
    assert |multiset(a)| == |a| && |multiset(b)| == |b|;
  }

  lemma TailSorted(s: seq<Detection>)
    requires SortedByConfidence(s) && s != []
    ensures SortedByConfidence(s[1..])
  {
  }

  /** Two outputs of one class and one score: a box of the whole frame and one of its upper half. */
  const TiedFrame := Frame([0.5, 0.5, 0.5, 0.25, 1.0, 1.0, 1.0, 0.5, 0.5, 0.5], 2, 1, 1, 1, 1.0, 0.0, 0.0)
  const Whole := Detection(0.0, 0.0, 1.0, 1.0, 0, 0.5)
  const Half := Detection(0.0, 0.0, 1.0, 0.5, 0, 0.5)

  lemma TiedCandidates(floor: real)
    requires floor <= 0.5
    ensures TiedFrame.Valid() && Candidates(TiedFrame, 2, floor) == [Whole, Half]
  {
    var f := TiedFrame;
    assert f.output[0] == 0.5 && f.output[2] == 0.5 && f.output[4] == 1.0 && f.output[6] == 1.0 && f.output[8] == 0.5;
    assert f.output[1] == 0.5 && f.output[3] == 0.25 && f.output[5] == 1.0 && f.output[7] == 0.5 && f.output[9] == 0.5;
    assert Best(f, 0, 0) == (-1, 0.0) && Best(f, 0, 1) == (-1, 0.0);
    assert Best(f, 1, 0) == (0, 0.5) && Best(f, 1, 1) == (0, 0.5);
    assert Decode(f, 0) == Whole;
    assert Decode(f, 1) == Half;
    hide Decode;
    assert Candidates(f, 0, floor) == [];
    assert Candidates(f, 1, floor) == [Whole];
  }

  /** With a tie that two sorts resolve differently the floors do disagree, so the condition is needed. */
  lemma TieOrderMatters()
    ensures TiedFrame.Valid()
    ensures IsSortOf(Candidates(TiedFrame, 2, 0.25), [Whole, Half]) && IsSortOf(Candidates(TiedFrame, 2, 0.5), [Half, Whole])
    ensures AtLeast(Nms([Whole, Half], 0.45), 0.5) == [Whole] && Nms([Half, Whole], 0.45) == [Half]
  {
    TiedCandidates(0.25);
    TiedCandidates(0.5);
    HalfOverlap(Whole, Half);
    hide IoU;
    SwapIsSort(Whole, Half);
    NmsOfPair(Whole, Half, 0.45);
    NmsOfPair(Half, Whole, 0.45);
    AtLeastAll([Whole], 0.5);
    hide Candidates;
    hide AtLeast;
  }

  lemma SwapIsSort(a: Detection, b: Detection)
    requires a.confidence == b.confidence
    ensures IsSortOf([a, b], [a, b]) && IsSortOf([a, b], [b, a])
  {
    assert multiset([a, b]) == multiset([b, a]);
  }

  lemma HalfOverlap(a: Detection, b: Detection)
    requires a == Detection(0.0, 0.0, 1.0, 1.0, 0, 0.5) && b == Detection(0.0, 0.0, 1.0, 0.5, 0, 0.5)
    ensures IoU(a, b) == 0.5 && IoU(b, a) == 0.5
  {
    OverlapSymmetric(a, b);
    assert Overlap(a, b) == 1.0 * 0.5;
    assert Area(a) == 1.0 && Area(b) == 0.5;
  }

  lemma NmsOfPair(a: Detection, b: Detection, threshold: real)
    requires Suppresses(a, b, threshold)
    ensures Nms([a, b], threshold) == [a]
  {
    hide Suppresses;
    var s := [a, b];
    assert Kept(s, 0, threshold) && !Kept(s, 1, threshold);
    assert Survivors(s, 1, threshold) == [a];
    assert Survivors(s, 2, threshold) == [a];
  }

  // ---- the code --------------------------------------------------------------------------------

  method BestClass(f: Frame, i: nat) returns (bestClass: int, maxScore: real)
    requires f.Valid() && i < f.numOutputs
    ensures (bestClass, maxScore) == Best(f, f.numClasses, i)
  {
    bestClass, maxScore := -1, 0.0;
    for c := 0 to f.numClasses
      invariant (bestClass, maxScore) == Best(f, c, i)
    {
      var score := f.Score(c, i);
      if score > maxScore {
        maxScore, bestClass := score, c;
      }
    }
  }

  method Decoded(f: Frame, confThreshold: real) returns (candidates: seq<Detection>)
    requires f.Valid()
    ensures candidates == Candidates(f, f.numOutputs, confThreshold)
    ensures forall d :: d in candidates ==> InFrame(d) && d.confidence >= confThreshold
  {
    candidates := [];
    for i := 0 to f.numOutputs
      invariant candidates == Candidates(f, i, confThreshold)
      invariant forall d :: d in candidates ==> InFrame(d) && d.confidence >= confThreshold
    {
      var bestClass, maxScore := BestClass(f, i);
      if maxScore < confThreshold {
        continue;
      }
      DecodeInFrame(f, i);
      candidates := candidates + [Decode(f, i)];
    }
  }

  lemma InsertKeepsElements(order: seq<Detection>, k: nat, d: Detection)
    requires k <= |order|
    ensures multiset(order[..k] + [d] + order[k..]) == multiset(order) + multiset{d}
  {
    assert order == order[..k] + order[k..];
  }

  lemma InsertKeepsSorted(order: seq<Detection>, k: nat, d: Detection)
    requires k <= |order| && SortedByConfidence(order)
    requires forall i | k <= i < |order| :: order[i].confidence < d.confidence
    requires k > 0 ==> order[k - 1].confidence >= d.confidence
    ensures SortedByConfidence(order[..k] + [d] + order[k..])
  {
    var r := order[..k] + [d] + order[k..];
    forall i, j | 0 <= i < j < |r|
      ensures r[i].confidence >= r[j].confidence
    {
      assert i < k ==> r[i] == order[i] && r[i].confidence >= order[k - 1].confidence;
      assert j > k ==> r[j] == order[j - 1];
      assert i > k ==> r[i] == order[i - 1];
    }
  }

  /** Stands for std::sort: callers may rely on the order of confidences only. */
  method Insert(order: seq<Detection>, d: Detection) returns (r: seq<Detection>)
    requires SortedByConfidence(order)
    ensures SortedByConfidence(r) && multiset(r) == multiset(order) + multiset{d}
  {
    var k := |order|;
    while k > 0 && order[k - 1].confidence < d.confidence
      invariant 0 <= k <= |order|
      invariant forall i | k <= i < |order| :: order[i].confidence < d.confidence
    {
      k := k - 1;
    }
    InsertKeepsElements(order, k, d);
    InsertKeepsSorted(order, k, d);
    r := order[..k] + [d] + order[k..];
  }

  method SortByConfidence(s: seq<Detection>) returns (order: seq<Detection>)
    ensures IsSortOf(s, order)
  {
    order := [];
    for n := 0 to |s|
      invariant SortedByConfidence(order)
      invariant multiset(order) == multiset(s[..n])
    {
      hide SortedByConfidence;
      assert s[..n + 1] == s[..n] + [s[n]];
      order := Insert(order, s[n]);
    }
    assert s[..|s|] == s;
  }

  /** Box `k` is suppressed by a kept box among the first `n`. */
  ghost predicate HitBefore(s: seq<Detection>, n: nat, k: nat, threshold: real)
    requires n <= |s| && k < |s|
  {
    exists j :: 0 <= j < n && j < k && Kept(s, j, threshold) && Suppresses(s[j], s[k], threshold)
  }

  /** The inner loop: marks what box `i` suppresses. */
  method SuppressBy(candidates: seq<Detection>, i: nat, suppressed: array<bool>, nmsThreshold: real)
    requires i < |candidates| == suppressed.Length
    modifies suppressed
    ensures forall k: nat | k < |candidates| :: suppressed[k] <==>
        old(suppressed[k]) || (i < k && Suppresses(candidates[i], candidates[k], nmsThreshold))
  {
    for j := i + 1 to |candidates|
      invariant forall k: nat | k < |candidates| :: suppressed[k] <==>
          old(suppressed[k]) || (i < k < j && Suppresses(candidates[i], candidates[k], nmsThreshold))
    {
      if suppressed[j] {
        continue;
      }
      if candidates[i].classId == candidates[j].classId {
        if IoU(candidates[i], candidates[j]) > nmsThreshold {
          suppressed[j] := true;
        }
      }
    }
  }

  method Suppress(candidates: seq<Detection>, nmsThreshold: real) returns (results: seq<Detection>)
    ensures results == Nms(candidates, nmsThreshold)
  {
    results := [];
    var n := |candidates|;
    var suppressed := new bool[n](_ => false);
    for i := 0 to n
      invariant results == Survivors(candidates, i, nmsThreshold)
      invariant forall k: nat | k < n :: suppressed[k] <==> HitBefore(candidates, i, k, nmsThreshold)
    {
      assert suppressed[i] <==> !Kept(candidates, i, nmsThreshold);
      if suppressed[i] {
        continue;
      }
      results := results + [candidates[i]];
      hide Survivors;
      hide IoU;
      SuppressBy(candidates, i, suppressed, nmsThreshold);
    }
  }

  /** What is reported are the survivors of some order that the sort may have chosen. */
  ghost predicate IsReport(candidates: seq<Detection>, results: seq<Detection>, threshold: real) {
    exists order :: IsSortOf(candidates, order) && results == Nms(order, threshold)
  }

  method Postprocess(f: Frame, confThreshold: real, nmsThreshold: real) returns (results: seq<Detection>)
    requires f.Valid()
    ensures IsReport(Candidates(f, f.numOutputs, confThreshold), results, nmsThreshold)
  {
    var candidates := Decoded(f, confThreshold);
    var sorted := SortByConfidence(candidates);
    results := Suppress(sorted, nmsThreshold);
  }
}
