/**
 * The interval report: each interval is clipped to the range, split over the buckets it touches and the pieces are
 * summed per bucket. Times are microseconds; the zone's offset is constant over the range.
 */
module IntervalStats {
  import opened Ints
  import opened Options
  import opened Seqs

  datatype Interval = Interval(start: int, end: Option<int>)

  /** The range, the clock, the bucket length and what local time is ahead. */
  datatype Query = Query(from: int, to: int, now: int, step: int, offset: int)

  predicate Valid(q: Query) {
    q.from < q.to && q.step > 0
  }

  function Finish(q: Query, iv: Interval): int {
    if iv.end.Some? then iv.end.value else Min(q.now, q.to)
  }

  /** The rows of `iv` that `clipped` keeps. */
  predicate Included(q: Query, iv: Interval) {
    && iv.start < q.to && (iv.end.None? || iv.end.value >= q.from)
    && (iv.start >= q.from || Finish(q, iv) > q.from)
  }

  function Lo(q: Query, iv: Interval): int {
    Max(iv.start, q.from)
  }

  function Hi(q: Query, iv: Interval): int {
    Max(Min(Finish(q, iv), q.to), iv.start)
  }

  // ---- buckets --------------------------------------------------------------------------------------------

  /** The instant, less the time since its bucket began on the local clock. */
  function BucketStart(q: Query, t: int): int
    requires Valid(q)
  {
    t - (t + q.offset) % q.step
  }

  predicate Aligned(q: Query, b: int)
    requires Valid(q)
  {
    (b + q.offset) % q.step == 0
  }

  function Series(first: int, last: int, step: int): seq<int>
    requires step > 0
    decreases last - first
  {
    if first > last then [] else [first] + Series(first + step, last, step)
  }

  datatype Piece = Piece(bucket: int, starts: bool, inside: int)

  function PieceAt(q: Query, iv: Interval, b: int): Piece {
    Piece(b, iv.start >= q.from && b <= iv.start < b + q.step,
          Min(Hi(q, iv), b + q.step) - Max(Lo(q, iv), b))
  }

  function PiecesAt(q: Query, iv: Interval, buckets: seq<int>): seq<Piece> {
    seq(|buckets|, i requires 0 <= i < |buckets| => PieceAt(q, iv, buckets[i]))
  }

  /** The buckets from the one with the first instant to the one with the last instant inside the interval. */
  function BucketsOf(q: Query, iv: Interval): seq<int>
    requires Valid(q)
  {
    Series(BucketStart(q, Lo(q, iv)), BucketStart(q, Max(Hi(q, iv) - 1, Lo(q, iv))), q.step)
  }

  function Pieces(q: Query, iv: Interval): seq<Piece>
    requires Valid(q)
  {
    if Included(q, iv) then PiecesAt(q, iv, BucketsOf(q, iv)) else []
  }

  function AllPieces(q: Query, ivs: seq<Interval>): seq<Piece>
    requires Valid(q)
  {
    if ivs == [] then [] else AllPieces(q, ivs[..|ivs| - 1]) + Pieces(q, ivs[|ivs| - 1])
  }

  // ---- the report -----------------------------------------------------------------------------------------

  /** totalSec of the row of bucket `b`. */
  function TotalAt(ps: seq<Piece>, b: int): int {
    if ps == [] then 0
    else TotalAt(ps[..|ps| - 1], b) + if ps[|ps| - 1].bucket == b then ps[|ps| - 1].inside else 0
  }

  /** count of the row of bucket `b`. */
  function CountAt(ps: seq<Piece>, b: int): nat {
    if ps == [] then 0
    else CountAt(ps[..|ps| - 1], b) + One(ps[|ps| - 1].bucket == b && ps[|ps| - 1].starts)
  }

  function Total(ps: seq<Piece>): int {
    if ps == [] then 0 else Total(ps[..|ps| - 1]) + ps[|ps| - 1].inside
  }

  function Starting(ps: seq<Piece>): nat {
    if ps == [] then 0 else Starting(ps[..|ps| - 1]) + One(ps[|ps| - 1].starts)
  }

  // ---- what the report means, without pieces --------------------------------------------------------------

  /** How long the interval and the range both lie in [lo, hi). */
  function Overlap(q: Query, iv: Interval, lo: int, hi: int): int {
    Max(0, Min(Min(Finish(q, iv), q.to), hi) - Max(Max(iv.start, q.from), lo))
  }

  /** The interval's length within the range. */
  function Clipped(q: Query, iv: Interval): int {
    Max(0, Min(Finish(q, iv), q.to) - Max(iv.start, q.from))
  }

  /** It starts within the range; one that ended before the range began is not looked at. */
  predicate Counted(q: Query, iv: Interval) {
    q.from <= iv.start < q.to && (iv.end.None? || iv.end.value >= q.from)
  }

  /** The interval runs at the instant; one that is still open runs until now. */
  predicate Running(q: Query, iv: Interval, t: int) {
    iv.start <= t && t < if iv.end.Some? then iv.end.value else q.now
  }

  /** The instants of the range in [lo, hi) at which the interval runs. */
  function Instants(q: Query, iv: Interval, lo: int, hi: int): nat
    decreases hi - lo
  {
    if hi <= lo then 0 else Instants(q, iv, lo, hi - 1) + One(q.from <= hi - 1 < q.to && Running(q, iv, hi - 1))
  }

  /** The time an interval spends in [lo, hi) and the range is the number of instants there at which it runs. */
  lemma {:induction false} OverlapIsInstants(q: Query, iv: Interval, lo: int, hi: int)
    requires lo <= hi
    ensures Overlap(q, iv, lo, hi) == Instants(q, iv, lo, hi)
    ensures lo == q.from && hi == q.to ==> Clipped(q, iv) == Instants(q, iv, lo, hi)
    decreases hi - lo
  {
    if lo < hi {
      OverlapIsInstants(q, iv, lo, hi - 1);
    }
  }

  // ---- buckets cut time into a line -----------------------------------------------------------------------

  lemma ModOfSum(base: int, d: int, step: int)
    requires step > 0 && base % step == 0 && 0 <= d < step
    ensures (base + d) % step == d
  {
    var k := base / step;
    assert base == step * k;
    assert (base + d) / step == k by {
      assert base + d - step * k == d;
      DivIs(base + d, step, k);
    }
  }

  lemma DivIs(n: int, step: int, k: int)
    requires step > 0 && 0 <= n - step * k < step
    ensures n / step == k && n % step == n - step * k
  {
    var m := n / step;
    assert n == step * m + n % step;
    MultiplesApart(step, m, k);
    MultiplesApart(step, k, m);
  }

  lemma {:induction false} MultiplesApart(step: int, m: int, k: int)
    requires step > 0
    ensures m < k ==> step * m + step <= step * k
    decreases k - m
  {
    if m < k {
      assert step * k == step * (k - 1) + step;
      MultiplesApart(step, m, k - 1);
    }
  }

  /** Within a bucket every instant has its start; outside none has. */
  lemma InBucketIff(q: Query, b: int, t: int)
    requires Valid(q) && Aligned(q, b)
    ensures BucketStart(q, t) == b <==> b <= t < b + q.step
  {
    if b <= t < b + q.step {
      ModOfSum(b + q.offset, t - b, q.step);
    }
  }

  lemma StartIsAligned(q: Query, t: int)
    requires Valid(q)
    ensures Aligned(q, BucketStart(q, t)) && BucketStart(q, t) <= t < BucketStart(q, t) + q.step
  {
    var n := t + q.offset;
    var k := n / q.step;
    assert n - n % q.step == q.step * k;
    DivIs(q.step * k, q.step, k);
  }

  lemma NextIsAligned(q: Query, b: int)
    requires Valid(q) && Aligned(q, b)
    ensures Aligned(q, b + q.step) && Aligned(q, b - q.step)
  {
    var k := (b + q.offset) / q.step;
    assert b + q.offset == q.step * k;
    assert b + q.step + q.offset == q.step * (k + 1);
    assert b - q.step + q.offset == q.step * (k - 1);
    DivIs(b + q.step + q.offset, q.step, k + 1);
    DivIs(b - q.step + q.offset, q.step, k - 1);
  }

  /** Two different buckets are at least a step apart. */
  lemma ApartByStep(q: Query, b: int, c: int)
    requires Valid(q) && Aligned(q, b) && Aligned(q, c) && b < c
    ensures b + q.step <= c
  {
    InBucketIff(q, b, c);
    InBucketIff(q, c, c);
  }

  lemma StartsInOrder(q: Query, t: int, u: int)
    requires Valid(q) && t <= u
    ensures BucketStart(q, t) <= BucketStart(q, u)
  {
    StartIsAligned(q, t);
    StartIsAligned(q, u);
    if BucketStart(q, u) < BucketStart(q, t) {
      ApartByStep(q, BucketStart(q, u), BucketStart(q, t));
    }
  }

  lemma {:induction false} SeriesIs(q: Query, first: int, last: int, b: int)
    requires Valid(q) && Aligned(q, first) && Aligned(q, last) && Aligned(q, b)
    ensures b in Series(first, last, q.step) <==> first <= b <= last
    decreases last - first
  {
    if first <= last {
      NextIsAligned(q, first);
      SeriesIs(q, first + q.step, last, b);
      if first < b {
        ApartByStep(q, first, b);
      }
    }
  }

  lemma {:induction false} SeriesOnce(first: int, last: int, step: int)
    requires step > 0
    ensures var s := Series(first, last, step);
      (forall i | 0 <= i < |s| :: s[i] >= first) && Distinct(s)
    decreases last - first
  {
    if first <= last {
      SeriesOnce(first + step, last, step);
    }
  }

  // ---- the pieces of one interval -------------------------------------------------------------------------

  lemma {:induction false} TotalAtPieces(q: Query, iv: Interval, buckets: seq<int>, b: int)
    requires Distinct(buckets)
    ensures TotalAt(PiecesAt(q, iv, buckets), b) == if b in buckets then PieceAt(q, iv, b).inside else 0
    ensures CountAt(PiecesAt(q, iv, buckets), b) == if b in buckets && PieceAt(q, iv, b).starts then 1 else 0
  {
    if buckets != [] {
      var front, last := buckets[..|buckets| - 1], buckets[|buckets| - 1];
      TotalAtPieces(q, iv, front, b);
      assert PiecesAt(q, iv, buckets)[..|buckets| - 1] == PiecesAt(q, iv, front);
      assert buckets == front + [last];
    }
  }

  lemma Ends(q: Query, iv: Interval)
    requires Valid(q) && Included(q, iv)
    ensures Lo(q, iv) <= Hi(q, iv)
  {
  }

  lemma BucketsOfIs(q: Query, iv: Interval, b: int)
    requires Valid(q) && Aligned(q, b)
    ensures var first, last := BucketStart(q, Lo(q, iv)), BucketStart(q, Max(Hi(q, iv) - 1, Lo(q, iv)));
      && (b in BucketsOf(q, iv) <==> first <= b <= last)
      && Distinct(BucketsOf(q, iv))
      && first <= Lo(q, iv) < first + q.step && last <= Max(Hi(q, iv) - 1, Lo(q, iv)) < last + q.step
      && (b < first ==> b + q.step <= first) && (last < b ==> last + q.step <= b)
  {
    var first, last := BucketStart(q, Lo(q, iv)), BucketStart(q, Max(Hi(q, iv) - 1, Lo(q, iv)));
    StartIsAligned(q, Lo(q, iv));
    StartIsAligned(q, Max(Hi(q, iv) - 1, Lo(q, iv)));
    SeriesIs(q, first, last, b);
    SeriesOnce(first, last, q.step);
    if b < first {
      ApartByStep(q, b, first);
    }
    if last < b {
      ApartByStep(q, last, b);
    }
  }

  /** A bucket's pieces of an interval add up to the time both lie in, and one counts it if it starts there. */
  lemma PiecesInBucket(q: Query, iv: Interval, b: int)
    requires Valid(q) && Aligned(q, b)
    ensures TotalAt(Pieces(q, iv), b) == Overlap(q, iv, b, b + q.step)
    ensures CountAt(Pieces(q, iv), b) == One(Counted(q, iv) && b <= iv.start < b + q.step)
  {
    BucketsOfIs(q, iv, b);
    if Included(q, iv) {
      Ends(q, iv);
      TotalAtPieces(q, iv, BucketsOf(q, iv), b);
    }
    hide BucketStart;
    hide Series;
    hide Aligned;
  }

  lemma {:induction false} TotalConcat(a: seq<Piece>, c: seq<Piece>, b: int)
    ensures TotalAt(a + c, b) == TotalAt(a, b) + TotalAt(c, b)
    ensures CountAt(a + c, b) == CountAt(a, b) + CountAt(c, b)
    ensures Total(a + c) == Total(a) + Total(c)
    ensures Starting(a + c) == Starting(a) + Starting(c)
  {
    if c == [] {
      assert a + c == a;
    } else {
      TotalConcat(a, c[..|c| - 1], b);
      assert (a + c)[..|a + c| - 1] == a + c[..|c| - 1];
    }
  }

  // ---- each row -------------------------------------------------------------------------------------------

  function OverlapAll(q: Query, ivs: seq<Interval>, b: int): int {
    if ivs == [] then 0 else OverlapAll(q, ivs[..|ivs| - 1], b) + Overlap(q, ivs[|ivs| - 1], b, b + q.step)
  }

  function StartingIn(q: Query, ivs: seq<Interval>, b: int): nat {
    if ivs == [] then 0
    else
      var iv := ivs[|ivs| - 1];
      StartingIn(q, ivs[..|ivs| - 1], b) + One(Counted(q, iv) && b <= iv.start < b + q.step)
  }

  /** A row's total is the time the intervals spend in its bucket and the range; its count is how many start there. */
  lemma {:induction false} RowMeans(q: Query, ivs: seq<Interval>, b: int)
    requires Valid(q) && Aligned(q, b)
    ensures TotalAt(AllPieces(q, ivs), b) == OverlapAll(q, ivs, b)
    ensures CountAt(AllPieces(q, ivs), b) == StartingIn(q, ivs, b)
  {
    if ivs != [] {
      var front, last := ivs[..|ivs| - 1], ivs[|ivs| - 1];
      RowMeans(q, front, b);
      PiecesInBucket(q, last, b);
      TotalConcat(AllPieces(q, front), Pieces(q, last), b);
      hide Pieces;
      hide Overlap;
      hide Counted;
    }
  }

  lemma SomeInBucket(ps: seq<Piece>, more: seq<Piece>, b: int)
    ensures HasPiece(ps + more, b) <==> HasPiece(ps, b) || HasPiece(more, b)
  {
    assert forall i | 0 <= i < |ps| :: (ps + more)[i] == ps[i];
    assert forall i | 0 <= i < |more| :: (ps + more)[|ps| + i] == more[i];
  }

  ghost predicate HasPiece(ps: seq<Piece>, b: int) {
    exists i :: 0 <= i < |ps| && ps[i].bucket == b
  }

  /** An interval has a piece in a bucket exactly if it spends time there or starts there, within the range. */
  lemma PieceIff(q: Query, iv: Interval, b: int)
    requires Valid(q) && Aligned(q, b)
    ensures HasPiece(Pieces(q, iv), b) <==>
      Overlap(q, iv, b, b + q.step) > 0 || (Counted(q, iv) && b <= iv.start < b + q.step)
  {
    BucketsOfIs(q, iv, b);
    hide BucketStart;
    hide Series;
    hide Aligned;
    if Included(q, iv) {
      var buckets := BucketsOf(q, iv);
      assert forall i | 0 <= i < |buckets| :: Pieces(q, iv)[i].bucket == buckets[i];
      if b in buckets {
        var i :| 0 <= i < |buckets| && buckets[i] == b;
        assert Pieces(q, iv)[i].bucket == b;
      }
    }
  }

  /** The report has a row for a bucket exactly if its total or its count is not zero. */
  lemma {:induction false} RowIff(q: Query, ivs: seq<Interval>, b: int)
    requires Valid(q) && Aligned(q, b)
    ensures OverlapAll(q, ivs, b) >= 0
    ensures HasPiece(AllPieces(q, ivs), b) <==> OverlapAll(q, ivs, b) > 0 || StartingIn(q, ivs, b) > 0
  {
    if ivs != [] {
      var front, last := ivs[..|ivs| - 1], ivs[|ivs| - 1];
      RowIff(q, front, b);
      PieceIff(q, last, b);
      SomeInBucket(AllPieces(q, front), Pieces(q, last), b);
      hide Pieces;
      hide Overlap;
      hide Counted;
      hide HasPiece;
      OverlapIsTime(q, last, b);
    }
  }

  lemma OverlapIsTime(q: Query, iv: Interval, b: int)
    ensures Overlap(q, iv, b, b + q.step) >= 0
  {
  }

  // ---- conservation ---------------------------------------------------------------------------------------

  lemma {:induction false} SeriesSum(q: Query, iv: Interval, b: int, last: int)
    requires Valid(q) && Aligned(q, b) && Aligned(q, last) && b <= last
    requires Lo(q, iv) <= Hi(q, iv) && Lo(q, iv) < b + q.step
    requires last <= Max(Hi(q, iv) - 1, Lo(q, iv)) < last + q.step
    ensures Total(PiecesAt(q, iv, Series(b, last, q.step))) == Hi(q, iv) - Max(Lo(q, iv), b)
    decreases last - b
  {
    var rest := Series(b + q.step, last, q.step);
    assert Series(b, last, q.step) == [b] + rest;
    FirstPiece(q, iv, b, rest);
    if b < last {
      NextIsAligned(q, b);
      ApartByStep(q, b, last);
      hide Total;
      SeriesSum(q, iv, b + q.step, last);
    } else {
      assert rest == [];
      assert Total(PiecesAt(q, iv, rest)) == 0;
    }
  }

  lemma FirstPiece(q: Query, iv: Interval, b: int, rest: seq<int>)
    ensures Total(PiecesAt(q, iv, [b] + rest)) == PieceAt(q, iv, b).inside + Total(PiecesAt(q, iv, rest))
  {
    assert PiecesAt(q, iv, [b] + rest) == [PieceAt(q, iv, b)] + PiecesAt(q, iv, rest);
    TotalConcat([PieceAt(q, iv, b)], PiecesAt(q, iv, rest), 0);
    assert [PieceAt(q, iv, b)][..0] == [];
  }

  /** The pieces of an interval add up to its length within the range. */
  lemma PiecesAddUp(q: Query, iv: Interval)
    requires Valid(q)
    ensures Total(Pieces(q, iv)) == Clipped(q, iv)
  {
    if Included(q, iv) {
      Ends(q, iv);
      var lo, end := Lo(q, iv), Max(Hi(q, iv) - 1, Lo(q, iv));
      StartIsAligned(q, lo);
      StartIsAligned(q, end);
      StartsInOrder(q, lo, end);
      hide Total;
      SeriesSum(q, iv, BucketStart(q, lo), BucketStart(q, end));
    }
  }

  lemma {:induction false} StartingAtMostOnce(q: Query, iv: Interval, buckets: seq<int>)
    requires Valid(q) && Distinct(buckets) && forall i | 0 <= i < |buckets| :: Aligned(q, buckets[i])
    ensures Starting(PiecesAt(q, iv, buckets)) ==
      One(iv.start >= q.from && exists i :: 0 <= i < |buckets| && buckets[i] <= iv.start < buckets[i] + q.step)
  {
    if buckets != [] {
      var front, last := buckets[..|buckets| - 1], buckets[|buckets| - 1];
      StartingAtMostOnce(q, iv, front);
      assert PiecesAt(q, iv, buckets)[..|buckets| - 1] == PiecesAt(q, iv, front);
      forall i | 0 <= i < |front| && front[i] <= iv.start < front[i] + q.step
        ensures !(last <= iv.start < last + q.step)
      {
        InBucketIff(q, front[i], iv.start);
        InBucketIff(q, last, iv.start);
        assert buckets[i] != buckets[|buckets| - 1];
      }
      assert forall i | 0 <= i < |front| :: buckets[i] == front[i];
      hide Aligned;
    }
  }

  lemma {:induction false} SeriesAligned(q: Query, first: int, last: int)
    requires Valid(q) && Aligned(q, first)
    ensures forall i | 0 <= i < |Series(first, last, q.step)| :: Aligned(q, Series(first, last, q.step)[i])
    decreases last - first
  {
    if first <= last {
      NextIsAligned(q, first);
      SeriesAligned(q, first + q.step, last);
    }
  }

  /** Exactly one piece counts an interval that starts in the range; none counts another. */
  lemma CountedOnce(q: Query, iv: Interval)
    requires Valid(q)
    ensures Starting(Pieces(q, iv)) == One(Counted(q, iv))
  {
    if Included(q, iv) {
      var buckets := BucketsOf(q, iv);
      var first := BucketStart(q, Lo(q, iv));
      Ends(q, iv);
      StartIsAligned(q, Lo(q, iv));
      SeriesAligned(q, first, BucketStart(q, Max(Hi(q, iv) - 1, Lo(q, iv))));
      BucketsOfIs(q, iv, first);
      StartingAtMostOnce(q, iv, buckets);
      if iv.start >= q.from {
        StartsInOrder(q, Lo(q, iv), Max(Hi(q, iv) - 1, Lo(q, iv)));
        assert first in buckets;
        var i :| 0 <= i < |buckets| && buckets[i] == first;
        assert buckets[i] <= iv.start < buckets[i] + q.step;
      }
      hide Starting;
      hide BucketStart;
    }
  }

  function ClippedAll(q: Query, ivs: seq<Interval>): int {
    if ivs == [] then 0 else ClippedAll(q, ivs[..|ivs| - 1]) + Clipped(q, ivs[|ivs| - 1])
  }

  function CountedAll(q: Query, ivs: seq<Interval>): nat {
    if ivs == [] then 0 else CountedAll(q, ivs[..|ivs| - 1]) + One(Counted(q, ivs[|ivs| - 1]))
  }

  lemma {:induction false} AllPiecesAddUp(q: Query, ivs: seq<Interval>)
    requires Valid(q)
    ensures Total(AllPieces(q, ivs)) == ClippedAll(q, ivs)
    ensures Starting(AllPieces(q, ivs)) == CountedAll(q, ivs)
  {
    if ivs != [] {
      var front, last := ivs[..|ivs| - 1], ivs[|ivs| - 1];
      AllPiecesAddUp(q, front);
      PiecesAddUp(q, last);
      CountedOnce(q, last);
      TotalConcat(AllPieces(q, front), Pieces(q, last), 0);
      hide Pieces;
      hide Clipped;
      hide Counted;
    }
  }

  /** The rows of the report: one for each bucket some piece lies in. */
  ghost predicate RowsOf(ps: seq<Piece>, buckets: seq<int>) {
    Distinct(buckets) && forall i | 0 <= i < |ps| :: ps[i].bucket in buckets
  }

  function SumOfTotals(ps: seq<Piece>, buckets: seq<int>): int {
    if buckets == [] then 0
    else SumOfTotals(ps, buckets[..|buckets| - 1]) + TotalAt(ps, buckets[|buckets| - 1])
  }

  function SumOfCounts(ps: seq<Piece>, buckets: seq<int>): nat {
    if buckets == [] then 0
    else SumOfCounts(ps, buckets[..|buckets| - 1]) + CountAt(ps, buckets[|buckets| - 1])
  }

  lemma {:induction false} OnePieceMore(ps: seq<Piece>, p: Piece, buckets: seq<int>)
    requires Distinct(buckets)
    ensures SumOfTotals(ps + [p], buckets) == SumOfTotals(ps, buckets) + if p.bucket in buckets then p.inside else 0
    ensures SumOfCounts(ps + [p], buckets) == SumOfCounts(ps, buckets) + if p.bucket in buckets && p.starts then 1 else 0
  {
    if buckets != [] {
      var front, last := buckets[..|buckets| - 1], buckets[|buckets| - 1];
      OnePieceMore(ps, p, front);
      assert (ps + [p])[..|ps|] == ps;
      assert buckets == front + [last];
    }
  }

  lemma {:induction false} NoPieces(buckets: seq<int>)
    ensures SumOfTotals([], buckets) == 0 && SumOfCounts([], buckets) == 0
  {
    if buckets != [] {
      NoPieces(buckets[..|buckets| - 1]);
    }
  }

  lemma {:induction false} GroupingConserves(ps: seq<Piece>, buckets: seq<int>)
    requires RowsOf(ps, buckets)
    ensures SumOfTotals(ps, buckets) == Total(ps) && SumOfCounts(ps, buckets) == Starting(ps)
  {
    if ps == [] {
      NoPieces(buckets);
    } else {
      var front, last := ps[..|ps| - 1], ps[|ps| - 1];
      GroupingConserves(front, buckets);
      OnePieceMore(front, last, buckets);
      assert front + [last] == ps;
    }
  }

  /**
   * The rows' totals sum to the intervals' lengths within the range, and their counts to the number of intervals that
   * start in it: splitting over buckets loses and invents nothing.
   */
  lemma ReportConserves(q: Query, ivs: seq<Interval>, buckets: seq<int>)
    requires Valid(q) && RowsOf(AllPieces(q, ivs), buckets)
    ensures SumOfTotals(AllPieces(q, ivs), buckets) == ClippedAll(q, ivs)
    ensures SumOfCounts(AllPieces(q, ivs), buckets) == CountedAll(q, ivs)
  {
    AllPiecesAddUp(q, ivs);
    GroupingConserves(AllPieces(q, ivs), buckets);
  }
}
