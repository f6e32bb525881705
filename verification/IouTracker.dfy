/**
 * The greedy IoU tracker: each detection continues the unmatched track of its class that overlaps it
 * most, or starts a new track; tracks unseen for too long are dropped.
 */
module IouTracker {
  import opened Detections
  import opened Seqs

  datatype Track = Track(key: int, lastDetection: Detection, lastSeenPass: int)

  datatype TrackedDetection = TrackedDetection(trackKey: int, detection: Detection)

  datatype Params = Params(minConfidence: real, iouMatchThreshold: real, expiryPasses: int)

  datatype TrackerState = TrackerState(tracks: seq<Track>, pass: int, nextKey: int)

  const NewTracker := TrackerState([], 0, 1)

  // ---- specification of one pass -----------------------------------------------------------------

  function Confident(minConfidence: real): Detection -> bool {
    (d: Detection) => d.confidence >= minConfidence
  }

  /** The scan over the first `n` tracks for the best match of `det`: its index (or -1) and overlap. */
  function BestTrack(tracks: seq<Track>, used: set<int>, det: Detection, threshold: real, n: nat): (int, real)
    requires n <= |tracks|
  {
    if n == 0 then (-1, threshold)
    else
      var (best, bestIoU) := BestTrack(tracks, used, det, threshold, n - 1);
      var iou := IoU(tracks[n - 1].lastDetection, det);
      if n - 1 in used || tracks[n - 1].lastDetection.classId != det.classId || iou <= bestIoU
      then (best, bestIoU)
      else (n - 1, iou)
  }

  /** Greedy matching of the first `k` detections: the updated tracks and each detection's track (-1: none). */
  function Match(tracks: seq<Track>, dets: seq<Detection>, threshold: real, pass: int, k: nat)
    : (r: (seq<Track>, seq<int>))
    requires k <= |dets|
    ensures |r.0| == |tracks| && |r.1| == k
    ensures forall di | 0 <= di < k :: -1 <= r.1[di] < |tracks|
  {
    if k == 0 then (tracks, [])
    else
      var (current, m) := Match(tracks, dets, threshold, pass, k - 1);
      var best := BestTrack(current, Used(m), dets[k - 1], threshold, |current|).0;
      BestTrackInRange(current, Used(m), dets[k - 1], threshold, |current|);
      if best >= 0
      then (current[best := Track(current[best].key, dets[k - 1], pass)], m + [best])
      else (current, m + [-1])
  }

  function Used(m: seq<int>): set<int> {
    set t | t in m && t >= 0
  }

  /** Appends a track for each unmatched detection among the first `k`. */
  function Create(tracks: seq<Track>, m: seq<int>, dets: seq<Detection>, nextKey: int, pass: int, k: nat)
    : (r: (seq<Track>, seq<int>, int))
    requires k <= |dets| == |m|
    requires forall di | 0 <= di < |m| :: -1 <= m[di] < |tracks|
    ensures |r.1| == |m| && |tracks| <= |r.0| && tracks == r.0[..|tracks|]
    ensures forall di | 0 <= di < |m| :: -1 <= r.1[di] < |r.0|
    ensures forall di | 0 <= di < k :: 0 <= r.1[di]
    ensures forall di | k <= di < |m| :: r.1[di] == m[di]
  {
    if k == 0 then (tracks, m, nextKey)
    else
      var (current, m', next) := Create(tracks, m, dets, nextKey, pass, k - 1);
      if m[k - 1] >= 0 then (current, m', next)
      else (current + [Track(next, dets[k - 1], pass)], m'[k - 1 := |current|], next + 1)
  }

  function Results(tracks: seq<Track>, m: seq<int>, dets: seq<Detection>): seq<TrackedDetection>
    requires |m| == |dets| && forall di | 0 <= di < |m| :: 0 <= m[di] < |tracks|
  {
    seq(|m|, di requires 0 <= di < |m| => TrackedDetection(tracks[m[di]].key, dets[di]))
  }

  function Alive(pass: int, expiryPasses: int): Track -> bool {
    (t: Track) => pass - t.lastSeenPass <= expiryPasses
  }

  /** One pass after the confidence filter: every track, the track of each detection, the next key. */
  function Assigned(s: TrackerState, dets: seq<Detection>, threshold: real)
    : (r: (seq<Track>, seq<int>, int))
    ensures |r.1| == |dets| && forall di | 0 <= di < |r.1| :: 0 <= r.1[di] < |r.0|
  {
    var (matched, m) := Match(s.tracks, dets, threshold, s.pass + 1, |dets|);
    Create(matched, m, dets, s.nextKey, s.pass + 1, |dets|)
  }

  function Update(p: Params, s: TrackerState, all: seq<Detection>): (TrackerState, seq<TrackedDetection>) {
    var dets := Filter(Confident(p.minConfidence), all);
    var (tracks, m, nextKey) := Assigned(s, dets, p.iouMatchThreshold);
    (TrackerState(Filter(Alive(s.pass + 1, p.expiryPasses), tracks), s.pass + 1, nextKey), Results(tracks, m, dets))
  }

  // ---- what the matching means -------------------------------------------------------------------

  lemma {:induction false} BestTrackInRange(
    tracks: seq<Track>, used: set<int>, det: Detection, threshold: real, n: nat)
    requires n <= |tracks|
    ensures -1 <= BestTrack(tracks, used, det, threshold, n).0 < n
  {
    if n > 0 {
      BestTrackInRange(tracks, used, det, threshold, n - 1);
    }
  }

  /** `ti` may continue with `det`: it is free, of its class and overlaps it by more than the threshold. */
  predicate MayMatch(tracks: seq<Track>, used: set<int>, det: Detection, threshold: real, ti: nat)
    requires ti < |tracks|
  {
    && ti !in used
    && tracks[ti].lastDetection.classId == det.classId
    && IoU(tracks[ti].lastDetection, det) > threshold
  }

  /** The scan finds the lowest-numbered track with the greatest overlap, and finds none only when no track may match. */
  lemma {:induction false} BestTrackIsBest(
    tracks: seq<Track>, used: set<int>, det: Detection, threshold: real, n: nat)
    requires n <= |tracks|
    ensures var (best, iou) := BestTrack(tracks, used, det, threshold, n);
            if best < 0 then
              best == -1 && iou == threshold
              && forall t: nat | t < n :: !MayMatch(tracks, used, det, threshold, t)
            else
              && best < n && MayMatch(tracks, used, det, threshold, best)
              && iou == IoU(tracks[best].lastDetection, det)
              && (forall t: nat | t < n && MayMatch(tracks, used, det, threshold, t) ::
                    IoU(tracks[t].lastDetection, det) <= iou)
              && (forall t: nat | t < best && MayMatch(tracks, used, det, threshold, t) ::
                    IoU(tracks[t].lastDetection, det) < iou)
  {
    hide IoU;
    if n > 0 {
      BestTrackIsBest(tracks, used, det, threshold, n - 1);
    }
  }

  /** Detection `di` was given `ti` as it stood before the pass, and no track left free overlapped it more. */
  ghost predicate Greedy(tracks: seq<Track>, dets: seq<Detection>, m: seq<int>, threshold: real, di: nat)
    requires di < |m| <= |dets| && -1 <= m[di] < |tracks|
  {
    var used := Used(m[..di]);
    if m[di] < 0 then forall t: nat | t < |tracks| :: !MayMatch(tracks, used, dets[di], threshold, t)
    else
      && MayMatch(tracks, used, dets[di], threshold, m[di])
      && forall t: nat | t < |tracks| && MayMatch(tracks, used, dets[di], threshold, t) ::
           IoU(tracks[t].lastDetection, dets[di]) <= IoU(tracks[m[di]].lastDetection, dets[di])
  }

  /** Matching touches matched tracks only: their box and pass are the detection's, their key stays. */
  ghost predicate Touched(tracks: seq<Track>, dets: seq<Detection>, pass: int, after: seq<Track>, m: seq<int>) {
    && |after| == |tracks| && |m| <= |dets|
    && (forall di | 0 <= di < |m| :: -1 <= m[di] < |tracks|)
    && (forall t | 0 <= t < |tracks| :: after[t].key == tracks[t].key)
    && (forall t | 0 <= t < |tracks| && t !in Used(m) :: after[t] == tracks[t])
    && (forall di | 0 <= di < |m| && m[di] >= 0 :: after[m[di]] == Track(tracks[m[di]].key, dets[di], pass))
  }

  predicate Injective(m: seq<int>) {
    forall a, b | 0 <= a < b < |m| && m[a] >= 0 && m[b] >= 0 :: m[a] != m[b]
  }

  lemma TouchOne(tracks: seq<Track>, dets: seq<Detection>, pass: int, current: seq<Track>, m: seq<int>, best: int)
    requires Touched(tracks, dets, pass, current, m) && Injective(m) && |m| < |dets|
    requires 0 <= best < |tracks| && best !in Used(m)
    ensures Injective(m + [best])
    ensures Touched(tracks, dets, pass, current[best := Track(current[best].key, dets[|m|], pass)], m + [best])
  {
    UsedAppend(m, best);
    forall di | 0 <= di < |m| && m[di] >= 0
      ensures m[di] != best
    {
      assert m[di] in Used(m);
    }
  }

  lemma TouchNone(tracks: seq<Track>, dets: seq<Detection>, pass: int, current: seq<Track>, m: seq<int>)
    requires Touched(tracks, dets, pass, current, m) && Injective(m) && |m| < |dets|
    ensures Injective(m + [-1]) && Touched(tracks, dets, pass, current, m + [-1])
  {
    UsedAppend(m, -1);
  }

  /** The matching is injective and touches nothing but the tracks it matched. */
  lemma {:induction false} MatchIsInjective(
    tracks: seq<Track>, dets: seq<Detection>, threshold: real, pass: int, k: nat)
    requires k <= |dets|
    ensures var (after, m) := Match(tracks, dets, threshold, pass, k);
            Injective(m) && Touched(tracks, dets, pass, after, m)
  {
    if k == 0 {
    } else {
      MatchIsInjective(tracks, dets, threshold, pass, k - 1);
      var (current, m) := Match(tracks, dets, threshold, pass, k - 1);
      var best := BestTrack(current, Used(m), dets[k - 1], threshold, |current|).0;
      BestIsFree(current, Used(m), dets[k - 1], threshold);
      assert Match(tracks, dets, threshold, pass, k) ==
        if best >= 0 then (current[best := Track(current[best].key, dets[k - 1], pass)], m + [best])
        else (current, m + [-1]);
      hide *;
      if best >= 0 {
        TouchOne(tracks, dets, pass, current, m, best);
      } else {
        TouchNone(tracks, dets, pass, current, m);
      }
    }
  }

  lemma BestIsFree(tracks: seq<Track>, used: set<int>, det: Detection, threshold: real)
    ensures var best := BestTrack(tracks, used, det, threshold, |tracks|).0;
            best >= 0 ==> best < |tracks| && best !in used
    ensures BestTrack(tracks, used, det, threshold, |tracks|).0 >= -1
  {
    BestTrackIsBest(tracks, used, det, threshold, |tracks|);
    hide BestTrack;
  }

  /**
   * Every detection goes to the free track of its class that overlaps it most, as the tracks stood
   * before the pass; a detection is left without a track only when no free track may match it.
   */
  lemma {:induction false} MatchIsGreedy(
    tracks: seq<Track>, dets: seq<Detection>, threshold: real, pass: int, k: nat, di: nat)
    requires di < k <= |dets|
    ensures Greedy(tracks, dets, Match(tracks, dets, threshold, pass, k).1, threshold, di)
  {
    var (current, m) := Match(tracks, dets, threshold, pass, k - 1);
    var m' := Match(tracks, dets, threshold, pass, k).1;
    assert m' == m + [m'[k - 1]];
    if di < k - 1 {
      MatchIsGreedy(tracks, dets, threshold, pass, k - 1, di);
      hide Match;
      assert m'[..di] == m[..di];
    } else {
      MatchIsInjective(tracks, dets, threshold, pass, k - 1);
      BestTrackIsBest(current, Used(m), dets[di], threshold, |current|);
      assert m'[..di] == m;
      assert m'[di] == BestTrack(current, Used(m), dets[di], threshold, |current|).0;
      hide Match;
      hide BestTrack;
      hide IoU;
      SameCandidates(tracks, dets, pass, current, m, dets[di], threshold);
    }
  }

  lemma SameCandidates(
    tracks: seq<Track>, dets: seq<Detection>, pass: int, current: seq<Track>, m: seq<int>, det: Detection, threshold: real)
    requires Touched(tracks, dets, pass, current, m)
    ensures forall t: nat | t < |tracks| :: MayMatch(current, Used(m), det, threshold, t) ==
                                            MayMatch(tracks, Used(m), det, threshold, t)
    ensures forall t: nat | t < |tracks| && MayMatch(tracks, Used(m), det, threshold, t) :: current[t] == tracks[t]
  {
    hide IoU;
    forall t: nat | t < |tracks|
      ensures MayMatch(current, Used(m), det, threshold, t) == MayMatch(tracks, Used(m), det, threshold, t)
    {
      assert t in Used(m) || current[t] == tracks[t];
    }
  }

  lemma UsedAppend(m: seq<int>, t: int)
    ensures Used(m + [t]) == Used(m) + if t >= 0 then {t} else {}
  {
  }

  // ---- keys and ages -----------------------------------------------------------------------------

  predicate DistinctKeys(tracks: seq<Track>) {
    forall a, b | 0 <= a < b < |tracks| :: tracks[a].key != tracks[b].key
  }

  /** Between passes: distinct keys below the next one, and no track last seen in the future. */
  predicate ValidState(s: TrackerState) {
    && DistinctKeys(s.tracks)
    && (forall i | 0 <= i < |s.tracks| :: s.tracks[i].key < s.nextKey && s.tracks[i].lastSeenPass <= s.pass)
  }

  /** Each live key with the pass it was last seen in. */
  function Ages(tracks: seq<Track>): map<int, int> {
    if tracks == [] then map[]
    else Ages(tracks[..|tracks| - 1])[tracks[|tracks| - 1].key := tracks[|tracks| - 1].lastSeenPass]
  }

  lemma {:induction false} AgesAt(tracks: seq<Track>, i: nat)
    requires DistinctKeys(tracks) && i < |tracks|
    ensures tracks[i].key in Ages(tracks) && Ages(tracks)[tracks[i].key] == tracks[i].lastSeenPass
  {
    if i < |tracks| - 1 {
      AgesAt(tracks[..|tracks| - 1], i);
    }
  }

  lemma {:induction false} AgesOf(tracks: seq<Track>, key: int) returns (i: nat)
    requires key in Ages(tracks)
    ensures i < |tracks| && tracks[i].key == key && Ages(tracks)[key] == tracks[i].lastSeenPass
  {
    if tracks[|tracks| - 1].key == key {
      i := |tracks| - 1;
    } else {
      i := AgesOf(tracks[..|tracks| - 1], key);
    }
  }

  function Keys(tracked: seq<TrackedDetection>): set<int> {
    set i | 0 <= i < |tracked| :: tracked[i].trackKey
  }

  function Stamp(keys: set<int>, pass: int): map<int, int> {
    map key | key in keys :: pass
  }

  /** What a pass promises about the tracks it reports, before expiry. */
  ghost predicate PassFacts(s: TrackerState, tracks: seq<Track>, tracked: seq<TrackedDetection>, nextKey: int)
  {
    && DistinctKeys(tracks) && s.nextKey <= nextKey
    && (forall i | 0 <= i < |tracks| :: tracks[i].key < nextKey && tracks[i].lastSeenPass <= s.pass + 1)
    && (forall a, b | 0 <= a < b < |tracked| :: tracked[a].trackKey != tracked[b].trackKey)
    && (forall i | 0 <= i < |tracked| ::
          tracked[i].trackKey in Ages(s.tracks) || s.nextKey <= tracked[i].trackKey < nextKey)
    && Ages(tracks) == Ages(s.tracks) + Stamp(Keys(tracked), s.pass + 1)
  }

  /** What creating tracks promises, after the first `k` detections. */
  ghost predicate Created(
    tracks: seq<Track>, m: seq<int>, nextKey: int, pass: int, after: seq<Track>, m': seq<int>, next: int)
  {
    && |m'| == |m| && |tracks| <= |after| && after[..|tracks|] == tracks && nextKey <= next
    && (forall i | 0 <= i < |after| :: after[i].key < next)
    && (forall i | |tracks| <= i < |after| :: nextKey <= after[i].key && after[i].lastSeenPass == pass && i in m')
    && (forall di | 0 <= di < |m| && m[di] >= 0 :: m'[di] == m[di])
    && (forall di | 0 <= di < |m| && m'[di] != m[di] :: |tracks| <= m'[di] < |after|)
    && DistinctKeys(after) && Injective(m')
  }

  lemma CreateOne(
    tracks: seq<Track>, m: seq<int>, nextKey: int, pass: int,
    current: seq<Track>, mc: seq<int>, next: int, k: nat, det: Detection)
    requires Created(tracks, m, nextKey, pass, current, mc, next)
    requires forall di | 0 <= di < |m| :: -1 <= m[di] < |tracks|
    requires k < |m| && m[k] == -1 && mc[k] == m[k]
    ensures Created(tracks, m, nextKey, pass, current + [Track(next, det, pass)], mc[k := |current|], next + 1)
  {
    var after, m' := current + [Track(next, det, pass)], mc[k := |current|];
    forall i | |tracks| <= i < |after|
      ensures i in m'
    {
      if i < |current| {
        assert i in mc;
        var di :| 0 <= di < |mc| && mc[di] == i;
        assert m'[di] == i;
      } else {
        assert m'[k] == i;
      }
    }
    forall di | 0 <= di < |m|
      ensures mc[di] < |current|
    {
    }
  }

  lemma CreateNone(tracks: seq<Track>, m: seq<int>, nextKey: int, pass: int)
    requires Injective(m) && DistinctKeys(tracks)
    requires forall i | 0 <= i < |tracks| :: tracks[i].key < nextKey
    ensures Created(tracks, m, nextKey, pass, tracks, m, nextKey)
  {
  }

  lemma {:induction false} CreateFacts(
    tracks: seq<Track>, m: seq<int>, dets: seq<Detection>, nextKey: int, pass: int, k: nat)
    requires k <= |dets| == |m| && Injective(m) && DistinctKeys(tracks)
    requires forall di | 0 <= di < |m| :: -1 <= m[di] < |tracks|
    requires forall i | 0 <= i < |tracks| :: tracks[i].key < nextKey
    ensures var (after, m', next) := Create(tracks, m, dets, nextKey, pass, k);
            Created(tracks, m, nextKey, pass, after, m', next)
  {
    hide Created;
    if k == 0 {
      CreateNone(tracks, m, nextKey, pass);
    } else {
      CreateFacts(tracks, m, dets, nextKey, pass, k - 1);
      var (current, mc, next) := Create(tracks, m, dets, nextKey, pass, k - 1);
      assert mc[k - 1] == m[k - 1];
      if m[k - 1] < 0 {
        CreateOne(tracks, m, nextKey, pass, current, mc, next, k - 1, dets[k - 1]);
      }
    }
  }

  /** A track is reported and has the new pass as its age, or it is as it was before the pass. */
  ghost predicate ReportedOrUntouched(before: seq<Track>, tracks: seq<Track>, keys: set<int>, pass: int) {
    && |before| <= |tracks|
    && (forall i | 0 <= i < |before| :: tracks[i].key == before[i].key)
    && (forall i | 0 <= i < |tracks| ::
          if tracks[i].key in keys then tracks[i].lastSeenPass == pass else i < |before| && tracks[i] == before[i])
    && (forall key | key in keys :: exists i :: 0 <= i < |tracks| && tracks[i].key == key)
  }

  lemma AssignedFacts(s: TrackerState, dets: seq<Detection>, threshold: real)
    requires ValidState(s)
    ensures var (tracks, m, nextKey) := Assigned(s, dets, threshold);
            PassFacts(s, tracks, Results(tracks, m, dets), nextKey)
  {
    var pass := s.pass + 1;
    var (matched, m0) := Match(s.tracks, dets, threshold, pass, |dets|);
    var (tracks, m, nextKey) := Create(matched, m0, dets, s.nextKey, pass, |dets|);
    assert (tracks, m, nextKey) == Assigned(s, dets, threshold);
    assert Injective(m0) && Touched(s.tracks, dets, pass, matched, m0) by {
      MatchIsInjective(s.tracks, dets, threshold, pass, |dets|);
    }
    hide Match;
    KeysKept(s.tracks, dets, pass, matched, m0);
    assert Created(matched, m0, s.nextKey, pass, tracks, m, nextKey) by {
      CreateFacts(matched, m0, dets, s.nextKey, pass, |dets|);
    }
    hide Create;
    hide Assigned;
    ReportFacts(s, dets, matched, m0, tracks, m, nextKey);
  }

  lemma KeysKept(tracks: seq<Track>, dets: seq<Detection>, pass: int, after: seq<Track>, m: seq<int>)
    requires Touched(tracks, dets, pass, after, m)
    ensures DistinctKeys(tracks) ==> DistinctKeys(after)
    ensures forall i | 0 <= i < |after| :: after[i].key == tracks[i].key
  {
  }

  lemma ReportFacts(
    s: TrackerState, dets: seq<Detection>, matched: seq<Track>, m0: seq<int>, tracks: seq<Track>, m: seq<int>, nextKey: int)
    requires ValidState(s) && |m0| == |m| == |dets|
    requires Touched(s.tracks, dets, s.pass + 1, matched, m0)
    requires Created(matched, m0, s.nextKey, s.pass + 1, tracks, m, nextKey)
    requires forall di | 0 <= di < |m| :: 0 <= m[di] < |tracks|
    ensures PassFacts(s, tracks, Results(tracks, m, dets), nextKey)
  {
    hide *;
    var tracked := Results(tracks, m, dets);
    assert ReportedOrUntouched(s.tracks, tracks, Keys(tracked), s.pass + 1) by {
      ReportedTracks(s, dets, matched, m0, tracks, m, nextKey);
    }
    CreatedDistinct(s, matched, m0, tracks, m, nextKey);
    assert DistinctKeys(s.tracks) by {
      ValidDistinct(s);
    }
    AgesAfter(s.tracks, tracks, Keys(tracked), s.pass + 1);
    ReportedOrigin(s, dets, matched, m0, tracks, m, nextKey);
    AssemblePassFacts(s, tracks, tracked, nextKey);
  }

  lemma ValidDistinct(s: TrackerState)
    requires ValidState(s)
    ensures DistinctKeys(s.tracks)
  {
  }

  lemma CreatedDistinct(
    s: TrackerState, matched: seq<Track>, m0: seq<int>, tracks: seq<Track>, m: seq<int>, nextKey: int)
    requires Created(matched, m0, s.nextKey, s.pass + 1, tracks, m, nextKey)
    ensures DistinctKeys(tracks) && Injective(m) && s.nextKey <= nextKey
    ensures forall i | 0 <= i < |tracks| :: tracks[i].key < nextKey
  {
  }

  lemma AssemblePassFacts(s: TrackerState, tracks: seq<Track>, tracked: seq<TrackedDetection>, nextKey: int)
    requires ValidState(s) && DistinctKeys(tracks) && s.nextKey <= nextKey
    requires forall i | 0 <= i < |tracks| :: tracks[i].key < nextKey
    requires ReportedOrUntouched(s.tracks, tracks, Keys(tracked), s.pass + 1)
    requires Ages(tracks) == Ages(s.tracks) + Stamp(Keys(tracked), s.pass + 1)
    requires ReportedKeysOk(s, tracked, nextKey)
    ensures PassFacts(s, tracks, tracked, nextKey)
  {
    hide Ages;
  }

  /** Reported keys are pairwise distinct and each is the key of a live track or a new one. */
  ghost predicate ReportedKeysOk(s: TrackerState, tracked: seq<TrackedDetection>, nextKey: int)
  {
    && (forall a, b | 0 <= a < b < |tracked| :: tracked[a].trackKey != tracked[b].trackKey)
    && (forall i | 0 <= i < |tracked| ::
          tracked[i].trackKey in Ages(s.tracks) || s.nextKey <= tracked[i].trackKey < nextKey)
  }

  lemma ReportedOrigin(
    s: TrackerState, dets: seq<Detection>, matched: seq<Track>, m0: seq<int>, tracks: seq<Track>, m: seq<int>, nextKey: int)
    requires ValidState(s) && |m0| == |m| == |dets|
    requires Touched(s.tracks, dets, s.pass + 1, matched, m0)
    requires Created(matched, m0, s.nextKey, s.pass + 1, tracks, m, nextKey)
    requires forall di | 0 <= di < |m| :: 0 <= m[di] < |tracks|
    ensures ReportedKeysOk(s, Results(tracks, m, dets), nextKey)
  {
    var tracked := Results(tracks, m, dets);
    forall j | 0 <= j < |s.tracks|
      ensures tracks[j].key == s.tracks[j].key
    {
      assert tracks[j] == matched[j];
    }
    hide Touched;
    hide Ages;
    forall i | 0 <= i < |tracked|
      ensures tracked[i].trackKey in Ages(s.tracks) || s.nextKey <= tracked[i].trackKey < nextKey
    {
      KeyOrigin(s, matched, m0, tracks, m, nextKey, m[i]);
    }
    forall a, b | 0 <= a < b < |tracked|
      ensures tracked[a].trackKey != tracked[b].trackKey
    {
      assert m[a] != m[b];
    }
  }

  lemma KeyOrigin(
    s: TrackerState, matched: seq<Track>, m0: seq<int>, tracks: seq<Track>, m: seq<int>, nextKey: int, i: nat)
    requires ValidState(s) && i < |tracks| && |s.tracks| == |matched|
    requires Created(matched, m0, s.nextKey, s.pass + 1, tracks, m, nextKey)
    requires forall j | 0 <= j < |s.tracks| :: tracks[j].key == s.tracks[j].key
    ensures tracks[i].key in Ages(s.tracks) || s.nextKey <= tracks[i].key < nextKey
  {
    if i < |s.tracks| {
      AgesAt(s.tracks, i);
    }
  }

  lemma ReportedTracks(
    s: TrackerState, dets: seq<Detection>, matched: seq<Track>, m0: seq<int>, tracks: seq<Track>, m: seq<int>, nextKey: int)
    requires ValidState(s) && |m0| == |m| == |dets|
    requires Touched(s.tracks, dets, s.pass + 1, matched, m0)
    requires Created(matched, m0, s.nextKey, s.pass + 1, tracks, m, nextKey)
    requires forall di | 0 <= di < |m| :: 0 <= m[di] < |tracks|
    ensures ReportedOrUntouched(s.tracks, tracks, Keys(Results(tracks, m, dets)), s.pass + 1)
  {
    var tracked := Results(tracks, m, dets);
    var keys := Keys(tracked);
    forall i | 0 <= i < |tracks|
      ensures if tracks[i].key in keys then tracks[i].lastSeenPass == s.pass + 1
              else i < |s.tracks| && tracks[i] == s.tracks[i]
    {
      ReportedKey(tracks, m, dets, i);
      TrackAfter(s, dets, matched, m0, tracks, m, nextKey, i);
    }
    forall i | 0 <= i < |s.tracks|
      ensures tracks[i].key == s.tracks[i].key
    {
      assert tracks[i] == matched[i];
    }
    forall key | key in keys
      ensures exists i :: 0 <= i < |tracks| && tracks[i].key == key
    {
      var di :| 0 <= di < |tracked| && tracked[di].trackKey == key;
      assert tracks[m[di]].key == key;
    }
  }

  lemma ReportedKey(tracks: seq<Track>, m: seq<int>, dets: seq<Detection>, i: nat)
    requires DistinctKeys(tracks) && |m| == |dets| && i < |tracks|
    requires forall di | 0 <= di < |m| :: 0 <= m[di] < |tracks|
    ensures tracks[i].key in Keys(Results(tracks, m, dets)) <==> i in m
  {
    var tracked := Results(tracks, m, dets);
    if tracks[i].key in Keys(tracked) {
      var di :| 0 <= di < |tracked| && tracked[di].trackKey == tracks[i].key;
      assert tracks[m[di]].key == tracks[i].key;
      assert m[di] == i;
    }
    if i in m {
      var di :| 0 <= di < |m| && m[di] == i;
      assert tracked[di].trackKey == tracks[i].key;
    }
  }

  lemma TrackAfter(
    s: TrackerState, dets: seq<Detection>, matched: seq<Track>, m0: seq<int>, tracks: seq<Track>, m: seq<int>,
    nextKey: int, i: nat)
    requires |m0| == |m| == |dets| && i < |tracks|
    requires Touched(s.tracks, dets, s.pass + 1, matched, m0)
    requires Created(matched, m0, s.nextKey, s.pass + 1, tracks, m, nextKey)
    requires forall di | 0 <= di < |m| :: 0 <= m[di] < |tracks|
    ensures if i in m then tracks[i].lastSeenPass == s.pass + 1 else i < |s.tracks| && tracks[i] == s.tracks[i]
  {
    if i < |matched| {
      assert tracks[i] == matched[i];
      if i in m {
        var di :| 0 <= di < |m| && m[di] == i;
        assert m0[di] == i;
      } else {
        forall t | t in Used(m0)
          ensures t in m
        {
          var di :| 0 <= di < |m0| && m0[di] == t;
          assert m[di] == t;
        }
      }
    }
  }

  lemma AgesAfter(before: seq<Track>, tracks: seq<Track>, keys: set<int>, pass: int)
    requires DistinctKeys(before) && DistinctKeys(tracks) && ReportedOrUntouched(before, tracks, keys, pass)
    ensures Ages(tracks) == Ages(before) + Stamp(keys, pass)
  {
    var ages, expected := Ages(tracks), Ages(before) + Stamp(keys, pass);
    forall key | key in ages
      ensures key in expected && ages[key] == expected[key]
    {
      var i := AgesOf(tracks, key);
      if key !in keys {
        AgesAt(before, i);
      }
    }
    forall key | key in expected
      ensures key in ages
    {
      if key in keys {
        var i :| 0 <= i < |tracks| && tracks[i].key == key;
        AgesAt(tracks, i);
      } else {
        var i := AgesOf(before, key);
        AgesAt(tracks, i);
      }
    }
  }

  function Recent(ages: map<int, int>, pass: int, expiryPasses: int): map<int, int> {
    map key | key in ages && pass - ages[key] <= expiryPasses :: ages[key]
  }

  lemma {:induction false} FilterDistinct(tracks: seq<Track>, pass: int, expiryPasses: int)
    requires DistinctKeys(tracks)
    ensures DistinctKeys(Filter(Alive(pass, expiryPasses), tracks))
  {
    if tracks != [] {
      var front := tracks[..|tracks| - 1];
      FilterDistinct(front, pass, expiryPasses);
      var left := Filter(Alive(pass, expiryPasses), front);
      forall i | 0 <= i < |left|
        ensures left[i].key != tracks[|tracks| - 1].key
      {
        assert left[i] in front;
      }
    }
  }

  /** Expiry restricts the ages and nothing else. */
  lemma ExpiryFacts(tracks: seq<Track>, pass: int, expiryPasses: int)
    requires DistinctKeys(tracks)
    ensures var left := Filter(Alive(pass, expiryPasses), tracks);
            DistinctKeys(left) && Ages(left) == Recent(Ages(tracks), pass, expiryPasses)
  {
    FilterDistinct(tracks, pass, expiryPasses);
    hide Filter;
    var left := Filter(Alive(pass, expiryPasses), tracks);
    var expected := Recent(Ages(tracks), pass, expiryPasses);
    forall key | key in Ages(left)
      ensures key in expected && Ages(left)[key] == expected[key]
    {
      LeftWasRecent(tracks, pass, expiryPasses, key);
    }
    forall key | key in expected
      ensures key in Ages(left)
    {
      var j := AgesOf(tracks, key);
      assert tracks[j] in left;
      var i :| 0 <= i < |left| && left[i] == tracks[j];
      AgesAt(left, i);
    }
    hide Ages;
  }

  lemma LeftWasRecent(tracks: seq<Track>, pass: int, expiryPasses: int, key: int)
    requires DistinctKeys(tracks) && DistinctKeys(Filter(Alive(pass, expiryPasses), tracks))
    requires key in Ages(Filter(Alive(pass, expiryPasses), tracks))
    ensures key in Ages(tracks) && pass - Ages(tracks)[key] <= expiryPasses
    ensures Ages(Filter(Alive(pass, expiryPasses), tracks))[key] == Ages(tracks)[key]
  {
    hide Filter;
    var left := Filter(Alive(pass, expiryPasses), tracks);
    var i := AgesOf(left, key);
    assert left[i] in left && left[i] in tracks;
    var j :| 0 <= j < |tracks| && tracks[j] == left[i];
    AgesAt(tracks, j);
  }

  /**
   * A pass keeps keys distinct and never reuses one: a reported key belongs to a track that was alive
   * or is new. The reported tracks have the new pass as age, the others keep theirs, and exactly the
   * tracks older than the expiry are gone.
   */
  lemma UpdateFacts(p: Params, s: TrackerState, all: seq<Detection>)
    requires ValidState(s) && 0 <= p.expiryPasses
    ensures var (s', tracked) := Update(p, s, all);
            && ValidState(s') && s'.pass == s.pass + 1 && s.nextKey <= s'.nextKey
            && (forall a, b | 0 <= a < b < |tracked| :: tracked[a].trackKey != tracked[b].trackKey)
            && (forall key | key in Keys(tracked) :: key in Ages(s.tracks) || s.nextKey <= key < s'.nextKey)
            && Ages(s'.tracks) ==
                 Recent(Ages(s.tracks) + Stamp(Keys(tracked), s'.pass), s'.pass, p.expiryPasses)
  {
    var dets := Filter(Confident(p.minConfidence), all);
    AssignedFacts(s, dets, p.iouMatchThreshold);
    var (tracks, m, nextKey) := Assigned(s, dets, p.iouMatchThreshold);
    hide Assigned;
    ExpiryFacts(tracks, s.pass + 1, p.expiryPasses);
    var left := Filter(Alive(s.pass + 1, p.expiryPasses), tracks);
    forall i | 0 <= i < |left|
      ensures left[i].key < nextKey && left[i].lastSeenPass <= s.pass + 1
    {
      assert left[i] in left && left[i] in tracks;
    }
    hide Ages;
  }

  // ---- which track a detection gets, and what the tracks remember ----------------------------------

  /** A live track that no earlier detection of the pass was given, of the detection's class, overlapping it enough. */
  predicate MayContinue(s: TrackerState, earlier: set<int>, det: Detection, threshold: real, t: nat)
    requires t < |s.tracks|
  {
    && s.tracks[t].key !in earlier && s.tracks[t].lastDetection.classId == det.classId
    && IoU(s.tracks[t].lastDetection, det) > threshold
  }

  /** The key given is that of the free track that overlaps the detection most, or a new one if no track may continue. */
  ghost predicate BestKey(s: TrackerState, earlier: set<int>, det: Detection, threshold: real, key: int) {
    || (key >= s.nextKey && forall t: nat | t < |s.tracks| :: !MayContinue(s, earlier, det, threshold, t))
    || (exists t: nat :: t < |s.tracks| && s.tracks[t].key == key && MayContinue(s, earlier, det, threshold, t)
          && forall u: nat | u < |s.tracks| && MayContinue(s, earlier, det, threshold, u) ::
               IoU(s.tracks[u].lastDetection, det) <= IoU(s.tracks[t].lastDetection, det))
  }

  /** The keys given to the first `n` detections, among the live tracks' keys. */
  lemma EarlierKeys(
    s: TrackerState, dets: seq<Detection>, matched: seq<Track>, m0: seq<int>, tracks: seq<Track>, m: seq<int>,
    nextKey: int, n: nat, t: nat)
    requires ValidState(s) && |m0| == |m| == |dets| && n <= |m| && t < |s.tracks|
    requires Touched(s.tracks, dets, s.pass + 1, matched, m0)
    requires Created(matched, m0, s.nextKey, s.pass + 1, tracks, m, nextKey)
    requires forall di | 0 <= di < |m| :: 0 <= m[di] < |tracks|
    ensures t in Used(m0[..n]) <==> s.tracks[t].key in Keys(Results(tracks, m, dets)[..n])
  {
    var tracked := Results(tracks, m, dets);
    assert tracks[t] == matched[t];
    if t in Used(m0[..n]) {
      var di :| 0 <= di < n && m0[..n][di] == t;
      assert tracked[..n][di].trackKey == s.tracks[t].key;
    }
    if s.tracks[t].key in Keys(tracked[..n]) {
      var di :| 0 <= di < n && tracked[..n][di].trackKey == s.tracks[t].key;
      assert tracks[m[di]].key == tracks[t].key;
      assert m[di] == t;
      assert m0[di] == t;
      assert m0[..n][di] == t;
    }
  }

  lemma KeyIsBest(
    s: TrackerState, dets: seq<Detection>, matched: seq<Track>, m0: seq<int>, tracks: seq<Track>, m: seq<int>,
    nextKey: int, threshold: real, di: nat)
    requires ValidState(s) && |m0| == |m| == |dets| && di < |m|
    requires Touched(s.tracks, dets, s.pass + 1, matched, m0) && Greedy(s.tracks, dets, m0, threshold, di)
    requires Created(matched, m0, s.nextKey, s.pass + 1, tracks, m, nextKey)
    requires forall di | 0 <= di < |m| :: 0 <= m[di] < |tracks|
    ensures var tracked := Results(tracks, m, dets);
      BestKey(s, Keys(tracked[..di]), dets[di], threshold, tracked[di].trackKey)
  {
    var tracked := Results(tracks, m, dets);
    var earlier := Keys(tracked[..di]);
    hide IoU;
    hide Keys;
    hide Results;
    forall t: nat | t < |s.tracks|
      ensures MayMatch(s.tracks, Used(m0[..di]), dets[di], threshold, t) <==>
        MayContinue(s, earlier, dets[di], threshold, t)
    {
      EarlierKeys(s, dets, matched, m0, tracks, m, nextKey, di, t);
    }
    assert tracked[di].trackKey == tracks[m[di]].key by {
      ResultAt(tracks, m, dets, di);
    }
    if m0[di] >= 0 {
      assert tracks[m0[di]] == matched[m0[di]];
      assert tracked[di].trackKey == s.tracks[m0[di]].key;
    }
  }

  lemma ResultAt(tracks: seq<Track>, m: seq<int>, dets: seq<Detection>, di: nat)
    requires |m| == |dets| && di < |m| && forall di | 0 <= di < |m| :: 0 <= m[di] < |tracks|
    ensures Results(tracks, m, dets)[di] == TrackedDetection(tracks[m[di]].key, dets[di])
  {
  }

  /** A track reported in the pass remembers the box it was reported with; any other is as it was. */
  ghost predicate Remembers(before: seq<Track>, tracks: seq<Track>, tracked: seq<TrackedDetection>, pass: int) {
    forall t | t in tracks ::
      if t.key in Keys(tracked)
      then exists i :: 0 <= i < |tracked| && t == Track(tracked[i].trackKey, tracked[i].detection, pass)
      else t in before
  }

  /** The box of a track given to a detection: matched or created. */
  ghost predicate BoxesSet(tracks: seq<Track>, m: seq<int>, dets: seq<Detection>, pass: int) {
    |m| <= |dets| && forall di | 0 <= di < |m| && m[di] >= 0 ::
      m[di] < |tracks| && tracks[m[di]].lastDetection == dets[di] && tracks[m[di]].lastSeenPass == pass
  }

  lemma {:induction false} CreateSetsBoxes(
    tracks: seq<Track>, m: seq<int>, dets: seq<Detection>, nextKey: int, pass: int, k: nat)
    requires k <= |dets| == |m| && forall di | 0 <= di < |m| :: -1 <= m[di] < |tracks|
    requires BoxesSet(tracks, m, dets, pass)
    ensures var (after, m', next) := Create(tracks, m, dets, nextKey, pass, k);
      BoxesSet(after, m', dets, pass)
  {
    if k > 0 {
      CreateSetsBoxes(tracks, m, dets, nextKey, pass, k - 1);
    }
  }

  lemma AssignedRemembers(s: TrackerState, dets: seq<Detection>, threshold: real)
    requires ValidState(s)
    ensures var (tracks, m, nextKey) := Assigned(s, dets, threshold);
      var tracked := Results(tracks, m, dets);
      && Remembers(s.tracks, tracks, tracked, s.pass + 1)
      && forall di | 0 <= di < |dets| :: BestKey(s, Keys(tracked[..di]), dets[di], threshold, tracked[di].trackKey)
  {
    var pass := s.pass + 1;
    var (matched, m0) := Match(s.tracks, dets, threshold, pass, |dets|);
    var (tracks, m, nextKey) := Create(matched, m0, dets, s.nextKey, pass, |dets|);
    assert (tracks, m, nextKey) == Assigned(s, dets, threshold);
    MatchIsInjective(s.tracks, dets, threshold, pass, |dets|);
    forall di | 0 <= di < |dets|
      ensures Greedy(s.tracks, dets, m0, threshold, di)
    {
      MatchIsGreedy(s.tracks, dets, threshold, pass, |dets|, di);
    }
    hide Match;
    hide Greedy;
    KeysKept(s.tracks, dets, pass, matched, m0);
    CreateFacts(matched, m0, dets, s.nextKey, pass, |dets|);
    assert BoxesSet(matched, m0, dets, pass);
    CreateSetsBoxes(matched, m0, dets, s.nextKey, pass, |dets|);
    hide Create;
    hide Assigned;
    hide *;
    RemembersReported(s, dets, matched, m0, tracks, m, nextKey);
    forall di | 0 <= di < |dets|
      ensures var tracked := Results(tracks, m, dets);
        BestKey(s, Keys(tracked[..di]), dets[di], threshold, tracked[di].trackKey)
    {
      KeyIsBest(s, dets, matched, m0, tracks, m, nextKey, threshold, di);
    }
  }

  lemma RemembersReported(
    s: TrackerState, dets: seq<Detection>, matched: seq<Track>, m0: seq<int>, tracks: seq<Track>, m: seq<int>,
    nextKey: int)
    requires ValidState(s) && |m0| == |m| == |dets| && BoxesSet(tracks, m, dets, s.pass + 1)
    requires Touched(s.tracks, dets, s.pass + 1, matched, m0)
    requires Created(matched, m0, s.nextKey, s.pass + 1, tracks, m, nextKey)
    requires forall di | 0 <= di < |m| :: 0 <= m[di] < |tracks|
    ensures Remembers(s.tracks, tracks, Results(tracks, m, dets), s.pass + 1)
  {
    var tracked := Results(tracks, m, dets);
    ReportedTracks(s, dets, matched, m0, tracks, m, nextKey);
    forall t | t in tracks
      ensures if t.key in Keys(tracked)
        then exists i :: 0 <= i < |tracked| && t == Track(tracked[i].trackKey, tracked[i].detection, s.pass + 1)
        else t in s.tracks
    {
      var j :| 0 <= j < |tracks| && tracks[j] == t;
      ReportedKey(tracks, m, dets, j);
      hide Keys;
      hide Touched;
      if t.key in Keys(tracked) {
        var di :| 0 <= di < |m| && m[di] == j;
        ResultAt(tracks, m, dets, di);
        hide Results;
        assert t == Track(tracked[di].trackKey, tracked[di].detection, s.pass + 1);
      }
    }
  }

  lemma ConfidentOnes(minConfidence: real, all: seq<Detection>)
    ensures forall d ::
      multiset(Filter(Confident(minConfidence), all))[d] == if d.confidence >= minConfidence then multiset(all)[d] else 0
  {
    forall d
      ensures multiset(Filter(Confident(minConfidence), all))[d] ==
        if d.confidence >= minConfidence then multiset(all)[d] else 0
    {
      FilterMultiset(Confident(minConfidence), all, d);
    }
  }

  lemma UpdateReports(p: Params, s: TrackerState, all: seq<Detection>)
    requires ValidState(s)
    ensures var (s', tracked) := Update(p, s, all);
      var dets := Filter(Confident(p.minConfidence), all);
      && |tracked| == |dets|
      && (forall i | 0 <= i < |dets| :: tracked[i].detection == dets[i]
            && BestKey(s, Keys(tracked[..i]), dets[i], p.iouMatchThreshold, tracked[i].trackKey))
      && Remembers(s.tracks, s'.tracks, tracked, s.pass + 1)
  {
    var dets := Filter(Confident(p.minConfidence), all);
    AssignedRemembers(s, dets, p.iouMatchThreshold);
    var (tracks, m, nextKey) := Assigned(s, dets, p.iouMatchThreshold);
    hide Assigned;
    hide BestKey;
    hide Keys;
    assert forall t | t in Filter(Alive(s.pass + 1, p.expiryPasses), tracks) :: t in tracks;
  }

  /**
   * What one pass reports: the detections that reach the minimum confidence, in order, each with the key of the live
   * track no earlier one got that overlaps it most, or a new key if none may continue with it. The tracks left remember
   * the box they were reported with, or are as they were.
   */
  lemma UpdateIsGreedy(p: Params, s: TrackerState, all: seq<Detection>) returns (dets: seq<Detection>)
    requires ValidState(s)
    ensures forall d :: multiset(dets)[d] == if d.confidence >= p.minConfidence then multiset(all)[d] else 0
    ensures dets == Filter(Confident(p.minConfidence), all)
    ensures var (s', tracked) := Update(p, s, all);
      && |tracked| == |dets|
      && (forall i | 0 <= i < |dets| :: tracked[i].detection == dets[i]
            && BestKey(s, Keys(tracked[..i]), dets[i], p.iouMatchThreshold, tracked[i].trackKey))
      && Remembers(s.tracks, s'.tracks, tracked, s.pass + 1)
  {
    hide *;
    ConfidentOnes(p.minConfidence, all);
    UpdateReports(p, s, all);
    dets := Filter(Confident(p.minConfidence), all);
  }

  // ---- the code ----------------------------------------------------------------------------------

  class Tracker {
    const params: Params
    var tracks: seq<Track>
    var pass: int
    var nextKey: int

    constructor (params: Params)
      ensures this.params == params && State() == NewTracker
    {
      this.params := params;
      tracks, pass, nextKey := [], 0, 1;
    }

    ghost function State(): TrackerState
      reads this
    {
      TrackerState(tracks, pass, nextKey)
    }

    method Advance(allDetections: seq<Detection>) returns (result: seq<TrackedDetection>)
      modifies this
      ensures (State(), result) == Update(params, old(State()), allDetections)
    {
      hide Match;
      hide Create;
      hide Filter;
      pass := pass + 1;
      var detections := KeepConfident(allDetections);
      var trackForDetection := MatchAll(detections);
      trackForDetection := CreateAll(trackForDetection, detections);
      result := [];
      for di := 0 to |detections|
        invariant result == Results(tracks, trackForDetection, detections)[..di]
      {
        result := result + [TrackedDetection(tracks[trackForDetection[di]].key, detections[di])];
      }
      assert result == Results(tracks, trackForDetection, detections);
      Expire();
    }

    method KeepConfident(allDetections: seq<Detection>) returns (detections: seq<Detection>)
      ensures detections == Filter(Confident(params.minConfidence), allDetections)
    {
      detections := [];
      for i := 0 to |allDetections|
        invariant detections == Filter(Confident(params.minConfidence), allDetections[..i])
      {
        assert allDetections[..i + 1][..i] == allDetections[..i];
        if allDetections[i].confidence >= params.minConfidence {
          detections := detections + [allDetections[i]];
        }
      }
      assert allDetections[..|allDetections|] == allDetections;
    }

    method MatchAll(detections: seq<Detection>) returns (trackForDetection: seq<int>)
      modifies this`tracks
      ensures (tracks, trackForDetection) ==
        Match(old(tracks), detections, params.iouMatchThreshold, pass, |detections|)
    {
      trackForDetection := [];
      for di := 0 to |detections|
        invariant (tracks, trackForDetection) ==
          Match(old(tracks), detections, params.iouMatchThreshold, pass, di)
      {
        var bestTrack := FindBest(trackForDetection, detections[di]);
        BestTrackInRange(tracks, Used(trackForDetection), detections[di], params.iouMatchThreshold, |tracks|);
        if bestTrack >= 0 {
          tracks := tracks[bestTrack := Track(tracks[bestTrack].key, detections[di], pass)];
        }
        trackForDetection := trackForDetection + [bestTrack];
      }
    }

    method CreateAll(m: seq<int>, detections: seq<Detection>) returns (trackForDetection: seq<int>)
      requires |m| == |detections| && forall di | 0 <= di < |m| :: -1 <= m[di] < |tracks|
      modifies this`tracks, this`nextKey
      ensures (tracks, trackForDetection, nextKey) ==
        Create(old(tracks), m, detections, old(nextKey), pass, |detections|)
    {
      trackForDetection := m;
      for di := 0 to |detections|
        invariant (tracks, trackForDetection, nextKey) ==
          Create(old(tracks), m, detections, old(nextKey), pass, di)
      {
        if trackForDetection[di] < 0 {
          tracks := tracks + [Track(nextKey, detections[di], pass)];
          nextKey := nextKey + 1;
          trackForDetection := trackForDetection[di := |tracks| - 1];
        }
      }
    }

    method FindBest(trackForDetection: seq<int>, detection: Detection) returns (bestTrack: int)
      ensures bestTrack ==
        BestTrack(tracks, Used(trackForDetection), detection, params.iouMatchThreshold, |tracks|).0
    {
      var bestIoU := params.iouMatchThreshold;
      bestTrack := -1;
      for ti := 0 to |tracks|
        invariant (bestTrack, bestIoU) ==
          BestTrack(tracks, Used(trackForDetection), detection, params.iouMatchThreshold, ti)
      {
        if ti in trackForDetection {
          continue;
        }
        if tracks[ti].lastDetection.classId != detection.classId {
          continue;
        }
        var iou := IoU(tracks[ti].lastDetection, detection);
        if iou > bestIoU {
          bestIoU, bestTrack := iou, ti;
        }
      }
    }

    method Expire()
      modifies this`tracks
      ensures tracks == Filter(Alive(pass, params.expiryPasses), old(tracks))
    {
      var left := [];
      for i := 0 to |tracks|
        invariant left == Filter(Alive(pass, params.expiryPasses), tracks[..i])
      {
        assert tracks[..i + 1][..i] == tracks[..i];
        if pass - tracks[i].lastSeenPass <= params.expiryPasses {
          left := left + [tracks[i]];
        }
      }
      assert tracks[..|tracks|] == tracks;
      tracks := left;
    }
  }
}
