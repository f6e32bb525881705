/**
 * The device agent's side of tracking: one record per reported track (its Nx id, first and last
 * reported pass, whether its best shot went out), which must age in step with the tracker.
 */
module DeviceAgent {
  import opened Detections
  import opened IouTracker
  import opened Seqs

  const TRACK_EXPIRY_INFERENCES := 10
  const BEST_SHOT_DELAY_INFERENCES := 3
  const IOU_PARAMS := Params(0.25, 0.3, TRACK_EXPIRY_INFERENCES)

  datatype TrackRecord = TrackRecord(
    uuid: nat, firstReportedInference: int, lastReportedInference: int, bestShotSent: bool)

  type Records = map<int, TrackRecord>

  // ---- specification -----------------------------------------------------------------------------

  /** Record updates for the first `k` reported detections: records, their ids, the next unused id. */
  function Report(records: Records, tracked: seq<TrackedDetection>, index: int, nextUuid: nat, k: nat)
    : (r: (Records, seq<nat>, nat))
    requires k <= |tracked|
    ensures |r.1| == k && nextUuid <= r.2
  {
    if k == 0 then (records, [], nextUuid)
    else
      var (current, uuids, next) := Report(records, tracked, index, nextUuid, k - 1);
      var key := tracked[k - 1].trackKey;
      if key in current
      then (current[key := current[key].(lastReportedInference := index)], uuids + [current[key].uuid], next)
      else (current[key := TrackRecord(next, index, index, false)], uuids + [next], next + 1)
  }

  function Expired(records: Records, index: int): Records {
    map key | key in records && index - records[key].lastReportedInference <= TRACK_EXPIRY_INFERENCES :: records[key]
  }

  /** Best shots among the first `k` reported detections: the records and the ids that get one. */
  function BestShots(records: Records, tracked: seq<TrackedDetection>, uuids: seq<nat>, index: int, k: nat)
    : (Records, seq<nat>)
    requires k <= |tracked| == |uuids|
  {
    if k == 0 then (records, [])
    else
      var (current, shots) := BestShots(records, tracked, uuids, index, k - 1);
      var key := tracked[k - 1].trackKey;
      if key !in current || !Due(current[key], index)
      then (current, shots)
      else (current[key := current[key].(bestShotSent := true)], shots + [uuids[k - 1]])
  }

  /** The tracker in use: the IoU tracker with its state, or ByteTrack, whose reports are foreign. */
  datatype ActiveTracker = NoTracker | Iou(state: TrackerState) | ByteTrack

  /** `epoch` counts tracker instances; the logs hold everything reported so far. */
  datatype AgentState = AgentState(
    tracker: ActiveTracker, records: Records, inferenceIndex: int, nextUuid: nat,
    epoch: nat, reports: seq<Reported>, shots: seq<nat>)

  datatype Reported = Reported(epoch: nat, iou: bool, key: int, uuid: nat, pass: int)

  const NewAgent := AgentState(NoTracker, map[], 0, 0, 0, [], [])

  function Ensured(s: AgentState, wantByteTrack: bool): AgentState {
    if (wantByteTrack && s.tracker.ByteTrack?) || (!wantByteTrack && s.tracker.Iou?) then s
    else s.(tracker := if wantByteTrack then ByteTrack else Iou(NewTracker),
            records := map[], epoch := s.epoch + 1)
  }

  /** One inference pass; `foreign` is what ByteTrack reports when it is the tracker. */
  function Pass(s: AgentState, wantByteTrack: bool, detections: seq<Detection>, foreign: seq<TrackedDetection>)
    : AgentState
  {
    Recorded(Tracked(s, wantByteTrack, detections), Tracks(s, wantByteTrack, detections, foreign))
  }

  function Tracked(s: AgentState, wantByteTrack: bool, detections: seq<Detection>): AgentState {
    var e := Ensured(s.(inferenceIndex := s.inferenceIndex + 1), wantByteTrack);
    if e.tracker.Iou? then e.(tracker := Iou(Update(IOU_PARAMS, e.tracker.state, detections).0)) else e
  }

  function Tracks(
    s: AgentState, wantByteTrack: bool, detections: seq<Detection>, foreign: seq<TrackedDetection>)
    : seq<TrackedDetection>
  {
    var e := Ensured(s, wantByteTrack);
    if e.tracker.Iou? then Update(IOU_PARAMS, e.tracker.state, detections).1 else foreign
  }

  function Recorded(s: AgentState, tracked: seq<TrackedDetection>): AgentState {
    var (records, uuids, next) := Report(s.records, tracked, s.inferenceIndex, s.nextUuid, |tracked|);
    var (marked, shots) := BestShots(Expired(records, s.inferenceIndex), tracked, uuids, s.inferenceIndex, |tracked|);
    s.(records := marked, nextUuid := next,
       reports := s.reports + Entries(s, tracked, uuids), shots := s.shots + shots)
  }

  function Entries(s: AgentState, tracked: seq<TrackedDetection>, uuids: seq<nat>): seq<Reported>
    requires |tracked| == |uuids|
  {
    seq(|tracked|, i requires 0 <= i < |tracked| =>
      Reported(s.epoch, s.tracker.Iou?, tracked[i].trackKey, uuids[i], s.inferenceIndex))
  }

  // ---- records after a pass ----------------------------------------------------------------------

  function LastReported(records: Records): map<int, int> {
    map key | key in records :: records[key].lastReportedInference
  }

  function Seen(tracked: seq<TrackedDetection>, k: nat): set<int>
    requires k <= |tracked|
  {
    set i | 0 <= i < k :: tracked[i].trackKey
  }

  lemma SeenOne(tracked: seq<TrackedDetection>, k: nat)
    requires k < |tracked|
    ensures Seen(tracked, k + 1) == Seen(tracked, k) + {tracked[k].trackKey}
  {
  }

  /** `after` extends `records`: known keys keep their id, first pass and flag; new keys get fresh ids. */
  ghost predicate Extends(records: Records, after: Records, index: int, nextUuid: nat, next: nat) {
    && records.Keys <= after.Keys && nextUuid <= next
    && (forall key | key in records ::
          after[key] == records[key].(lastReportedInference := after[key].lastReportedInference))
    && (forall key | key in after && key !in records ::
          nextUuid <= after[key].uuid < next && after[key].firstReportedInference == index && !after[key].bestShotSent)
    && (forall a, b | a in after && b in after && a !in records && b !in records && a != b ::
          after[a].uuid != after[b].uuid)
  }

  lemma {:induction false} ReportExtends(
    records: Records, tracked: seq<TrackedDetection>, index: int, nextUuid: nat, k: nat)
    requires k <= |tracked|
    ensures var (after, uuids, next) := Report(records, tracked, index, nextUuid, k);
            Extends(records, after, index, nextUuid, next)
  {
    if k > 0 {
      ReportExtends(records, tracked, index, nextUuid, k - 1);
    }
  }

  lemma LastReportedOne(records: Records, key: int, record: TrackRecord)
    ensures LastReported(records[key := record]) == LastReported(records)[key := record.lastReportedInference]
  {
  }

  lemma StampOne(ages: map<int, int>, keys: set<int>, index: int, key: int)
    ensures (ages + Stamp(keys, index))[key := index] == ages + Stamp(keys + {key}, index)
  {
  }

  /** Reporting gives every reported key the age of this pass and leaves the other ages. */
  lemma {:induction false} ReportAges(
    records: Records, tracked: seq<TrackedDetection>, index: int, nextUuid: nat, k: nat)
    requires k <= |tracked|
    ensures LastReported(Report(records, tracked, index, nextUuid, k).0)
         == LastReported(records) + Stamp(Seen(tracked, k), index)
  {
    if k > 0 {
      ReportAges(records, tracked, index, nextUuid, k - 1);
      var current := Report(records, tracked, index, nextUuid, k - 1).0;
      var after := Report(records, tracked, index, nextUuid, k).0;
      var key := tracked[k - 1].trackKey;
      assert key in after && after == current[key := after[key]] && after[key].lastReportedInference == index;
      hide Report;
      LastReportedOne(current, key, after[key]);
      SeenOne(tracked, k - 1);
      StampOne(LastReported(records), Seen(tracked, k - 1), index, key);
      hide *;
    }
  }

  /** The id reported for a detection is the id of its record. */
  lemma {:induction false} ReportedIds(
    records: Records, tracked: seq<TrackedDetection>, index: int, nextUuid: nat, k: nat, i: nat)
    requires i < k <= |tracked|
    ensures var (after, uuids, next) := Report(records, tracked, index, nextUuid, k);
            tracked[i].trackKey in after && uuids[i] == after[tracked[i].trackKey].uuid
  {
    if i < k - 1 {
      ReportedIds(records, tracked, index, nextUuid, k - 1, i);
    }
  }

  lemma ExpiredAges(records: Records, index: int)
    ensures LastReported(Expired(records, index)) == Recent(LastReported(records), index, TRACK_EXPIRY_INFERENCES)
  {
  }

  /** The record's best shot has not gone out and it was first reported long enough ago. */
  predicate Due(record: TrackRecord, index: int) {
    !record.bestShotSent && index - record.firstReportedInference >= BEST_SHOT_DELAY_INFERENCES
  }

  /** Best shots change flags only: each one raised goes out once, to a record seen for long enough. */
  ghost predicate Marks(records: Records, after: Records, shots: seq<nat>, index: int) {
    && after.Keys == records.Keys
    && (forall key | key in records ::
          after[key] == records[key].(bestShotSent := after[key].bestShotSent)
          && (records[key].bestShotSent ==> after[key].bestShotSent))
    && (forall key | key in records :: after[key].bestShotSent <==>
          records[key].bestShotSent || records[key].uuid in shots)
    && Distinct(shots)
    && (forall u | u in shots :: exists key :: key in records && records[key].uuid == u && Due(records[key], index))
  }

  ghost predicate DistinctIds(records: Records) {
    forall a, b | a in records && b in records && a != b :: records[a].uuid != records[b].uuid
  }

  ghost predicate IdsOf(records: Records, tracked: seq<TrackedDetection>, uuids: seq<nat>) {
    && |uuids| == |tracked|
    && (forall i | 0 <= i < |tracked| && tracked[i].trackKey in records ::
          uuids[i] == records[tracked[i].trackKey].uuid)
  }

  lemma {:induction false} BestShotsMark(
    records: Records, tracked: seq<TrackedDetection>, uuids: seq<nat>, index: int, k: nat)
    requires k <= |tracked| && IdsOf(records, tracked, uuids) && DistinctIds(records)
    ensures var (after, shots) := BestShots(records, tracked, uuids, index, k);
            Marks(records, after, shots, index)
  {
    if k > 0 {
      BestShotsMark(records, tracked, uuids, index, k - 1);
      var (current, shots) := BestShots(records, tracked, uuids, index, k - 1);
      var key := tracked[k - 1].trackKey;
      if key in current && Due(current[key], index) {
        MarkOne(records, current, shots, index, key);
      }
      hide Marks;
    }
  }

  lemma MarkOne(records: Records, current: Records, shots: seq<nat>, index: int, key: int)
    requires Marks(records, current, shots, index) && DistinctIds(records)
    requires key in current && Due(current[key], index)
    ensures Marks(records, current[key := current[key].(bestShotSent := true)], shots + [records[key].uuid], index)
  {
  }

  // ---- the tracker and the records age in step -----------------------------------------------------

  function Shift(ages: map<int, int>, offset: int): map<int, int> {
    map key | key in ages :: ages[key] + offset
  }

  lemma ShiftStamp(ages: map<int, int>, keys: set<int>, pass: int, offset: int)
    ensures Shift(ages + Stamp(keys, pass), offset) == Shift(ages, offset) + Stamp(keys, pass + offset)
  {
  }

  lemma ShiftRecent(ages: map<int, int>, pass: int, offset: int, expiry: int)
    ensures Shift(Recent(ages, pass, expiry), offset) == Recent(Shift(ages, offset), pass + offset, expiry)
  {
  }

  /** With the IoU tracker, the records are the live tracks and every age differs by the same offset. */
  ghost predicate InStep(s: AgentState) {
    s.tracker.Iou? ==>
      && ValidState(s.tracker.state)
      && LastReported(s.records) == Shift(Ages(s.tracker.state.tracks), s.inferenceIndex - s.tracker.state.pass)
  }

  lemma SeenIsKeys(tracked: seq<TrackedDetection>)
    ensures Seen(tracked, |tracked|) == Keys(tracked)
  {
  }

  lemma RecordedAges(s: AgentState, tracked: seq<TrackedDetection>)
    requires DistinctIds(s.records) && forall key | key in s.records :: s.records[key].uuid < s.nextUuid
    ensures LastReported(Recorded(s, tracked).records) ==
      Recent(LastReported(s.records) + Stamp(Keys(tracked), s.inferenceIndex), s.inferenceIndex, TRACK_EXPIRY_INFERENCES)
  {
    var (records, uuids, next) := Report(s.records, tracked, s.inferenceIndex, s.nextUuid, |tracked|);
    ReportAges(s.records, tracked, s.inferenceIndex, s.nextUuid, |tracked|);
    SeenIsKeys(tracked);
    ExpiredAges(records, s.inferenceIndex);
    RecordedFacts(s, tracked);
    var expired := Expired(records, s.inferenceIndex);
    var (marked, shots) := BestShots(expired, tracked, uuids, s.inferenceIndex, |tracked|);
    MarksKeepAges(expired, marked, shots, s.inferenceIndex);
  }

  lemma MarksKeepAges(records: Records, after: Records, shots: seq<nat>, index: int)
    requires Marks(records, after, shots, index)
    ensures LastReported(after) == LastReported(records)
  {
    forall key | key in records
      ensures after[key].lastReportedInference == records[key].lastReportedInference
    {
      assert after[key] == records[key].(bestShotSent := after[key].bestShotSent);
    }
  }

  /** The three steps of recording a pass, each with what it promises. */
  lemma RecordedFacts(s: AgentState, tracked: seq<TrackedDetection>)
    requires DistinctIds(s.records) && forall key | key in s.records :: s.records[key].uuid < s.nextUuid
    ensures var (records, uuids, next) := Report(s.records, tracked, s.inferenceIndex, s.nextUuid, |tracked|);
            var expired := Expired(records, s.inferenceIndex);
            var (marked, shots) := BestShots(expired, tracked, uuids, s.inferenceIndex, |tracked|);
            && Extends(s.records, records, s.inferenceIndex, s.nextUuid, next)
            && DistinctIds(records) && IdsOf(records, tracked, uuids)
            && (forall i | 0 <= i < |tracked| :: tracked[i].trackKey in records)
            && Marks(expired, marked, shots, s.inferenceIndex)
  {
    var (records, uuids, next) := Report(s.records, tracked, s.inferenceIndex, s.nextUuid, |tracked|);
    ReportExtends(s.records, tracked, s.inferenceIndex, s.nextUuid, |tracked|);
    ExtendedIds(s.records, records, s.inferenceIndex, s.nextUuid, next);
    forall i | 0 <= i < |tracked|
      ensures tracked[i].trackKey in records && uuids[i] == records[tracked[i].trackKey].uuid
    {
      ReportedIds(s.records, tracked, s.inferenceIndex, s.nextUuid, |tracked|, i);
    }
    hide Report;
    var expired := Expired(records, s.inferenceIndex);
    BestShotsMark(expired, tracked, uuids, s.inferenceIndex, |tracked|);
    hide BestShots;
    hide Marks;
    hide Extends;
  }

  lemma ExtendedIds(records: Records, after: Records, index: int, nextUuid: nat, next: nat)
    requires Extends(records, after, index, nextUuid, next) && DistinctIds(records)
    requires forall key | key in records :: records[key].uuid < nextUuid
    ensures DistinctIds(after) && forall key | key in after :: after[key].uuid < next
  {
  }

  /** A new tracker starts with no tracks, and its records are cleared with it. */
  lemma EnsuredInStep(s: AgentState, wantByteTrack: bool)
    requires InStep(s)
    ensures InStep(Ensured(s, wantByteTrack))
  {
  }

  /**
   * After every pass the records' keys are the tracker's keys and all ages differ by one offset, which
   * stays the same for as long as the tracker does.
   */
  lemma PassKeepsStep(
    s: AgentState, wantByteTrack: bool, detections: seq<Detection>, foreign: seq<TrackedDetection>)
    requires InStep(s) && IdsValid(s)
    ensures var s' := Pass(s, wantByteTrack, detections, foreign);
            && InStep(s')
            && (s'.tracker.Iou? ==> SameKeys(s'.tracker.state, s'.records))
            && (s'.tracker.Iou? && s.tracker.Iou? && s'.epoch == s.epoch ==>
                  s'.inferenceIndex - s'.tracker.state.pass == s.inferenceIndex - s.tracker.state.pass)
  {
    EnsuredInStep(s, wantByteTrack);
    var e := Ensured(s, wantByteTrack);
    var t := Tracked(s, wantByteTrack, detections);
    hide IdsValid;
    hide DistinctIds;
    if e.tracker.Iou? {
      hide Update;
      hide Recorded;
      hide InStep;
      assert t == e.(inferenceIndex := e.inferenceIndex + 1,
                     tracker := Iou(Update(IOU_PARAMS, e.tracker.state, detections).0));
      assert IdsValid(e) by {
        EnsuredIds(s, wantByteTrack);
      }
      IouPassInStep(e, t, detections, Update(IOU_PARAMS, e.tracker.state, detections).1);
    }
  }

  lemma EnsuredIds(s: AgentState, wantByteTrack: bool)
    requires IdsValid(s)
    ensures IdsValid(Ensured(s, wantByteTrack))
  {
  }

  lemma IouPassInStep(e: AgentState, t: AgentState, detections: seq<Detection>, tracked: seq<TrackedDetection>)
    requires e.tracker.Iou? && InStep(e) && IdsValid(e)
    requires t == e.(inferenceIndex := e.inferenceIndex + 1,
                     tracker := Iou(Update(IOU_PARAMS, e.tracker.state, detections).0))
    requires tracked == Update(IOU_PARAMS, e.tracker.state, detections).1
    ensures var s' := Recorded(t, tracked);
            && InStep(s') && s'.tracker == t.tracker && s'.inferenceIndex == t.inferenceIndex
            && t.tracker.state.pass == e.tracker.state.pass + 1
            && SameKeys(t.tracker.state, s'.records)
  {
    var s' := Recorded(t, tracked);
    assert s'.tracker == t.tracker && s'.inferenceIndex == t.inferenceIndex;
    hide Recorded;
    TrackerAges(e.tracker.state, detections, t.inferenceIndex);
    hide Update;
    RecordedAges(t, tracked);
    ConcludeInStep(e, t, s', Keys(tracked));
    hide *;
  }

  lemma ConcludeInStep(e: AgentState, t: AgentState, s': AgentState, keys: set<int>)
    requires e.tracker.Iou? && t.tracker.Iou? && InStep(e) && ValidState(t.tracker.state)
    requires t.records == e.records && t.inferenceIndex == e.inferenceIndex + 1
    requires t.tracker.state.pass == e.tracker.state.pass + 1
    requires s'.tracker == t.tracker && s'.inferenceIndex == t.inferenceIndex
    requires AgesAdvance(e.tracker.state, t.tracker.state, keys, t.inferenceIndex)
    requires LastReported(s'.records) ==
      Recent(LastReported(t.records) + Stamp(keys, t.inferenceIndex), t.inferenceIndex, TRACK_EXPIRY_INFERENCES)
    ensures InStep(s') && SameKeys(t.tracker.state, s'.records)
  {
    hide ValidState;
    hide Recent;
    hide Stamp;
    hide Ages;
    hide LastReported;
    hide Shift;
    InStepKeys(t.tracker.state, s'.records, t.inferenceIndex - t.tracker.state.pass);
  }

  ghost predicate SameKeys(st: TrackerState, records: Records) {
    records.Keys == Ages(st.tracks).Keys
  }

  lemma InStepKeys(st: TrackerState, records: Records, offset: int)
    requires LastReported(records) == Shift(Ages(st.tracks), offset)
    ensures SameKeys(st, records)
  {
    assert records.Keys == LastReported(records).Keys;
    assert Shift(Ages(st.tracks), offset).Keys == Ages(st.tracks).Keys;
  }

  lemma TrackerAges(st: TrackerState, detections: seq<Detection>, index: int)
    requires ValidState(st)
    ensures var (st', tracked) := Update(IOU_PARAMS, st, detections);
            && ValidState(st') && st'.pass == st.pass + 1
            && AgesAdvance(st, st', Keys(tracked), index)
  {
    assert IOU_PARAMS.expiryPasses == TRACK_EXPIRY_INFERENCES == 10;
    var (st', tracked) := Update(IOU_PARAMS, st, detections);
    UpdateFacts(IOU_PARAMS, st, detections);
    hide *;
    ShiftedAges(st, st', Keys(tracked), index);
  }

  /** Seen on the agent's clock, the tracker's ages advance exactly as the records' do. */
  ghost predicate AgesAdvance(st: TrackerState, st': TrackerState, keys: set<int>, index: int) {
    var offset := index - st'.pass;
    Shift(Ages(st'.tracks), offset) ==
      Recent(Shift(Ages(st.tracks), offset) + Stamp(keys, index), index, TRACK_EXPIRY_INFERENCES)
  }

  lemma ShiftedAges(st: TrackerState, st': TrackerState, keys: set<int>, index: int)
    requires Ages(st'.tracks) == Recent(Ages(st.tracks) + Stamp(keys, st'.pass), st'.pass, TRACK_EXPIRY_INFERENCES)
    ensures AgesAdvance(st, st', keys, index)
  {
    hide Ages;
    hide Shift;
    hide Recent;
    hide Stamp;
    ShiftedMaps(Ages(st.tracks), keys, st'.pass, index - st'.pass);
  }

  lemma ShiftedMaps(ages: map<int, int>, keys: set<int>, pass: int, offset: int)
    ensures Shift(Recent(ages + Stamp(keys, pass), pass, TRACK_EXPIRY_INFERENCES), offset) ==
            Recent(Shift(ages, offset) + Stamp(keys, pass + offset), pass + offset, TRACK_EXPIRY_INFERENCES)
  {
    ShiftStamp(ages, keys, pass, offset);
    ShiftRecent(ages + Stamp(keys, pass), pass, offset, TRACK_EXPIRY_INFERENCES);
    hide *;
  }

  // ---- ids and best shots over runs ----------------------------------------------------------------

  ghost predicate IdsValid(s: AgentState) {
    && DistinctIds(s.records)
    && (forall key | key in s.records :: s.records[key].uuid < s.nextUuid)
    && (forall i | 0 <= i < |s.reports| :: s.reports[i].uuid < s.nextUuid)
    && (forall u | u in s.shots :: u < s.nextUuid)
  }

  /** Across all reports, an id names one track of one tracker, and a track of the IoU tracker has one id. */
  ghost predicate OneIdPerTrack(reports: seq<Reported>) {
    forall i, j | 0 <= i < |reports| && 0 <= j < |reports| :: SameTrackSameId(reports[i], reports[j])
  }

  predicate SameTrackSameId(a: Reported, b: Reported) {
    && (a.uuid == b.uuid ==> a.epoch == b.epoch && a.key == b.key)
    && (a.iou && b.iou && a.epoch == b.epoch && a.key == b.key ==> a.uuid == b.uuid)
  }

  /** A report whose id is still on record was made by this tracker under that key. */
  ghost predicate ReportsOnRecord(s: AgentState) {
    && (forall i | 0 <= i < |s.reports| :: s.reports[i].epoch <= s.epoch)
    && (forall i, key | 0 <= i < |s.reports| && key in s.records && s.records[key].uuid == s.reports[i].uuid ::
          s.reports[i].key == key && s.reports[i].epoch == s.epoch)
  }

  /** What this IoU tracker reported: used keys only, each under the id on record while it is alive. */
  ghost predicate ReportsOfTracker(s: AgentState, nextKey: int) {
    forall i | 0 <= i < |s.reports| && s.reports[i].epoch == s.epoch ::
      && s.reports[i].iou && s.reports[i].key < nextKey
      && (s.reports[i].key in s.records ==> s.records[s.reports[i].key].uuid == s.reports[i].uuid)
  }

  ghost predicate ShotsValid(s: AgentState) {
    && Distinct(s.shots)
    && (forall key | key in s.records :: s.records[key].bestShotSent <==> s.records[key].uuid in s.shots)
  }

  ghost predicate Inv(s: AgentState) {
    && InStep(s) && IdsValid(s) && ShotsValid(s)
    && OneIdPerTrack(s.reports) && ReportsOnRecord(s)
    && (s.tracker.Iou? ==> ReportsOfTracker(s, s.tracker.state.nextKey))
  }

  lemma EnsuredInv(s: AgentState, wantByteTrack: bool)
    requires Inv(s)
    ensures Inv(Ensured(s, wantByteTrack))
  {
    EnsuredInStep(s, wantByteTrack);
    hide InStep;
  }

  /** Where the id of a report of this pass comes from. */
  lemma NewReport(t: AgentState, tracked: seq<TrackedDetection>, i: nat)
    requires IdsValid(t) && i < |tracked|
    ensures var (records, uuids, next) := Report(t.records, tracked, t.inferenceIndex, t.nextUuid, |tracked|);
            && tracked[i].trackKey in records && uuids[i] == records[tracked[i].trackKey].uuid < next
            && (if tracked[i].trackKey in t.records then uuids[i] == t.records[tracked[i].trackKey].uuid
                else t.nextUuid <= uuids[i])
  {
    var (records, uuids, next) := Report(t.records, tracked, t.inferenceIndex, t.nextUuid, |tracked|);
    ReportedIds(t.records, tracked, t.inferenceIndex, t.nextUuid, |tracked|, i);
    ReportExtends(t.records, tracked, t.inferenceIndex, t.nextUuid, |tracked|);
    hide Report;
    ExtendedIds(t.records, records, t.inferenceIndex, t.nextUuid, next);
  }

  /** The records after a pass: those reported or on record before it, under the ids they had or got. */
  ghost predicate After(t: AgentState, s': AgentState, records: Records) {
    && s'.records.Keys <= records.Keys
    && (forall key | key in s'.records :: s'.records[key].uuid == records[key].uuid)
  }

  lemma RecordedAfter(t: AgentState, tracked: seq<TrackedDetection>)
    requires IdsValid(t) && ShotsValid(t)
    ensures var s' := Recorded(t, tracked);
            var (records, uuids, next) := Report(t.records, tracked, t.inferenceIndex, t.nextUuid, |tracked|);
            && After(t, s', records) && DistinctIds(records) && ShotsValid(s') && s'.nextUuid == next
            && s'.reports == t.reports + Entries(t, tracked, uuids)
            && (forall key | key in records :: records[key].uuid < next)
            && (forall u | u in s'.shots :: u < next)
  {
    RecordedFacts(t, tracked);
    var (records, uuids, next) := Report(t.records, tracked, t.inferenceIndex, t.nextUuid, |tracked|);
    ExtendedIds(t.records, records, t.inferenceIndex, t.nextUuid, next);
    hide Report;
    var expired := Expired(records, t.inferenceIndex);
    var (marked, shots) := BestShots(expired, tracked, uuids, t.inferenceIndex, |tracked|);
    hide BestShots;
    FlagsStay(t, records, next);
    ShotsGrow(expired, marked, shots, t.shots, t.inferenceIndex);
  }

  /** Reporting a pass leaves flags right: a new record has neither a flag nor a shot. */
  lemma FlagsStay(t: AgentState, records: Records, next: nat)
    requires IdsValid(t) && ShotsValid(t) && Extends(t.records, records, t.inferenceIndex, t.nextUuid, next)
    ensures forall key | key in records :: records[key].bestShotSent <==> records[key].uuid in t.shots
  {
  }

  lemma ShotsGrow(records: Records, after: Records, shots: seq<nat>, before: seq<nat>, index: int)
    requires Marks(records, after, shots, index) && Distinct(before) && DistinctIds(records)
    requires forall key | key in records :: records[key].bestShotSent <==> records[key].uuid in before
    ensures Distinct(before + shots)
    ensures forall key | key in after :: after[key].bestShotSent <==> after[key].uuid in before + shots
    ensures after.Keys == records.Keys && forall key | key in after :: after[key].uuid == records[key].uuid
    ensures forall u | u in shots :: exists key :: key in records && records[key].uuid == u
  {
    forall i, j | 0 <= i < |before| && 0 <= j < |shots|
      ensures before[i] != shots[j]
    {
      assert shots[j] in shots;
      var key :| key in records && records[key].uuid == shots[j] && Due(records[key], index);
    }
    forall key | key in after
      ensures after[key].uuid == records[key].uuid
    {
      assert after[key] == records[key].(bestShotSent := after[key].bestShotSent);
    }
    hide Marks;
  }

  /** Every reported key was alive, so on record, or is new. */
  ghost predicate KeysOk(t: AgentState, tracked: seq<TrackedDetection>, nextKey: int) {
    forall i | 0 <= i < |tracked| :: tracked[i].trackKey in t.records || nextKey <= tracked[i].trackKey
  }

  /** An earlier report and a report of this pass agree on id, tracker and key. */
  lemma OldAndNew(t: AgentState, tracked: seq<TrackedDetection>, nextKey: int, r: nat, i: nat)
    requires IdsValid(t) && ReportsOnRecord(t) && r < |t.reports| && i < |tracked|
    requires t.tracker.Iou? ==> ReportsOfTracker(t, nextKey) && KeysOk(t, tracked, nextKey)
    ensures var uuid := Report(t.records, tracked, t.inferenceIndex, t.nextUuid, |tracked|).1[i];
            && (t.reports[r].uuid == uuid ==> t.reports[r].epoch == t.epoch && t.reports[r].key == tracked[i].trackKey)
            && (t.tracker.Iou? && t.reports[r].epoch == t.epoch && t.reports[r].key == tracked[i].trackKey ==>
                  t.reports[r].uuid == uuid)
  {
    NewReport(t, tracked, i);
    hide Report;
  }

  lemma TwoNew(t: AgentState, tracked: seq<TrackedDetection>, i: nat, j: nat)
    requires IdsValid(t) && ShotsValid(t) && i < |tracked| && j < |tracked|
    ensures var uuids := Report(t.records, tracked, t.inferenceIndex, t.nextUuid, |tracked|).1;
            uuids[i] == uuids[j] <==> tracked[i].trackKey == tracked[j].trackKey
  {
    NewReport(t, tracked, i);
    NewReport(t, tracked, j);
    RecordedAfter(t, tracked);
    hide Report;
    hide Recorded;
  }

  lemma RecordedHistory(t: AgentState, tracked: seq<TrackedDetection>, nextKey: int)
    requires IdsValid(t) && ShotsValid(t) && OneIdPerTrack(t.reports) && ReportsOnRecord(t)
    requires t.tracker.Iou? ==> ReportsOfTracker(t, nextKey) && KeysOk(t, tracked, nextKey)
    ensures OneIdPerTrack(Recorded(t, tracked).reports)
  {
    RecordedAfter(t, tracked);
    var (records, uuids, next) := Report(t.records, tracked, t.inferenceIndex, t.nextUuid, |tracked|);
    var s' := Recorded(t, tracked);
    var n := |t.reports|;
    forall i, j | 0 <= i < |s'.reports| && 0 <= j < |s'.reports|
      ensures SameTrackSameId(s'.reports[i], s'.reports[j])
    {
      if i >= n && j >= n {
        TwoNew(t, tracked, i - n, j - n);
      } else if i >= n {
        OldAndNew(t, tracked, nextKey, j, i - n);
      } else if j >= n {
        OldAndNew(t, tracked, nextKey, i, j - n);
      }
      hide Recorded;
      hide Report;
    }
    hide Recorded;
    hide Report;
  }

  lemma NewKeysAreReported(t: AgentState, tracked: seq<TrackedDetection>, key: int) returns (i: nat)
    requires key in Report(t.records, tracked, t.inferenceIndex, t.nextUuid, |tracked|).0 && key !in t.records
    ensures i < |tracked| && tracked[i].trackKey == key
  {
    ReportAges(t.records, tracked, t.inferenceIndex, t.nextUuid, |tracked|);
    var records := Report(t.records, tracked, t.inferenceIndex, t.nextUuid, |tracked|).0;
    hide Report;
    assert key in LastReported(records);
    assert key in Stamp(Seen(tracked, |tracked|), t.inferenceIndex);
    i :| 0 <= i < |tracked| && tracked[i].trackKey == key;
  }

  lemma RecordUuid(t: AgentState, tracked: seq<TrackedDetection>, key: int)
    requires IdsValid(t)
    requires key in Report(t.records, tracked, t.inferenceIndex, t.nextUuid, |tracked|).0
    ensures var uuid := Report(t.records, tracked, t.inferenceIndex, t.nextUuid, |tracked|).0[key].uuid;
            if key in t.records then uuid == t.records[key].uuid else uuid >= t.nextUuid
  {
    ReportExtends(t.records, tracked, t.inferenceIndex, t.nextUuid, |tracked|);
    hide Report;
  }

  lemma RecordedReports(t: AgentState, tracked: seq<TrackedDetection>, nextKey: int, nextKey': int)
    requires IdsValid(t) && ShotsValid(t) && ReportsOnRecord(t) && nextKey <= nextKey'
    requires t.tracker.Iou? ==> ReportsOfTracker(t, nextKey) && KeysOk(t, tracked, nextKey) && KeysBelow(t, nextKey)
    requires t.tracker.Iou? ==>
      forall i | 0 <= i < |tracked| :: tracked[i].trackKey in t.records || tracked[i].trackKey < nextKey'
    ensures var s' := Recorded(t, tracked);
            ReportsOnRecord(s') && (t.tracker.Iou? ==> ReportsOfTracker(s', nextKey'))
  {
    RecordedAfter(t, tracked);
    var (records, uuids, next) := Report(t.records, tracked, t.inferenceIndex, t.nextUuid, |tracked|);
    var s' := Recorded(t, tracked);
    assert s'.epoch == t.epoch && s'.tracker == t.tracker;
    hide Recorded;
    var n := |t.reports|;
    forall i, key | 0 <= i < |s'.reports| && key in s'.records
      ensures s'.reports[i].uuid == s'.records[key].uuid ==> s'.reports[i].key == key && s'.reports[i].epoch == t.epoch
      ensures t.tracker.Iou? && s'.reports[i].epoch == t.epoch && s'.reports[i].key == key ==>
                s'.reports[i].uuid == s'.records[key].uuid
    {
      RecordUuid(t, tracked, key);
      if i < n {
        if key !in t.records {
          var _ := NewKeysAreReported(t, tracked, key);
        }
      } else {
        NewReport(t, tracked, i - n);
      }
      hide Report;
    }
    hide Report;
  }

  ghost predicate KeysBelow(t: AgentState, nextKey: int) {
    forall key | key in t.records :: key < nextKey
  }

  lemma InStepKeysBelow(s: AgentState)
    requires InStep(s) && s.tracker.Iou?
    ensures KeysBelow(s, s.tracker.state.nextKey)
    ensures s.records.Keys == Ages(s.tracker.state.tracks).Keys
  {
    var st := s.tracker.state;
    InStepKeys(st, s.records, s.inferenceIndex - st.pass);
    forall key | key in s.records
      ensures key < st.nextKey
    {
      var i := AgesOf(st.tracks, key);
    }
  }

  /** Every pass, with either tracker and across every switch, keeps the invariant. */
  lemma PassKeepsInv(
    s: AgentState, wantByteTrack: bool, detections: seq<Detection>, foreign: seq<TrackedDetection>)
    requires Inv(s)
    ensures Inv(Pass(s, wantByteTrack, detections, foreign))
  {
    PassKeepsStep(s, wantByteTrack, detections, foreign);
    EnsuredInv(s, wantByteTrack);
    var e := Ensured(s, wantByteTrack);
    var t := Tracked(s, wantByteTrack, detections);
    var tracked := Tracks(s, wantByteTrack, detections, foreign);
    var nextKey := if e.tracker.Iou? then e.tracker.state.nextKey else 0;
    var nextKey' := if t.tracker.Iou? then t.tracker.state.nextKey else 0;
    assert t == e.(inferenceIndex := e.inferenceIndex + 1, tracker := t.tracker) && t.tracker.Iou? == e.tracker.Iou?;
    if e.tracker.Iou? {
      assert (t.tracker.state, tracked) == Update(IOU_PARAMS, e.tracker.state, detections);
      IouKeys(e, detections, t.tracker.state, tracked);
    }
    assert Recorded(t, tracked) == Pass(s, wantByteTrack, detections, foreign);
    assert Recorded(t, tracked).tracker == t.tracker;
    hide *;
    InvParts(e, t, nextKey);
    RecordedHistory(t, tracked, nextKey);
    RecordedReports(t, tracked, nextKey, nextKey');
    RecordedAfter(t, tracked);
    RecordedIdsValid(t, tracked);
    var s' := Recorded(t, tracked);
    ComposeInv(s', nextKey');
  }

  lemma ComposeInv(s: AgentState, nextKey: int)
    requires InStep(s) && IdsValid(s) && ShotsValid(s) && OneIdPerTrack(s.reports) && ReportsOnRecord(s)
    requires s.tracker.Iou? ==> nextKey == s.tracker.state.nextKey && ReportsOfTracker(s, nextKey)
    ensures Inv(s)
  {
  }

  /** Advancing the tracker alone leaves records and logs as they were. */
  lemma InvParts(e: AgentState, t: AgentState, nextKey: int)
    requires Inv(e) && t == e.(inferenceIndex := e.inferenceIndex + 1, tracker := t.tracker)
    requires e.tracker.Iou? ==> nextKey == e.tracker.state.nextKey
    requires t.tracker.Iou? ==> e.tracker.Iou?
    ensures IdsValid(t) && ShotsValid(t) && OneIdPerTrack(t.reports) && ReportsOnRecord(t)
    ensures t.tracker.Iou? ==> ReportsOfTracker(t, nextKey) && KeysBelow(t, nextKey)
  {
    if e.tracker.Iou? {
      InStepKeysBelow(e);
    }
    hide InStep;
  }

  lemma IouKeys(e: AgentState, detections: seq<Detection>, st': TrackerState, tracked: seq<TrackedDetection>)
    requires Inv(e) && e.tracker.Iou?
    requires (st', tracked) == Update(IOU_PARAMS, e.tracker.state, detections)
    ensures e.tracker.state.nextKey <= st'.nextKey && KeysOk(e, tracked, e.tracker.state.nextKey)
    ensures forall i | 0 <= i < |tracked| :: tracked[i].trackKey in e.records || tracked[i].trackKey < st'.nextKey
  {
    InStepKeysBelow(e);
    UpdateFacts(IOU_PARAMS, e.tracker.state, detections);
    hide Update;
    forall i | 0 <= i < |tracked|
      ensures tracked[i].trackKey in Keys(tracked)
    {
    }
  }

  lemma RecordedIdsValid(t: AgentState, tracked: seq<TrackedDetection>)
    requires IdsValid(t) && ShotsValid(t)
    ensures IdsValid(Recorded(t, tracked))
  {
    RecordedAfter(t, tracked);
    var (records, uuids, next) := Report(t.records, tracked, t.inferenceIndex, t.nextUuid, |tracked|);
    var s' := Recorded(t, tracked);
    hide Recorded;
    forall i | 0 <= i < |tracked|
      ensures uuids[i] < next
    {
      NewReport(t, tracked, i);
    }
    ReportExtends(t.records, tracked, t.inferenceIndex, t.nextUuid, |tracked|);
    hide Report;
  }

  // ---- runs ------------------------------------------------------------------------------------------

  datatype PassInput = PassInput(wantByteTrack: bool, detections: seq<Detection>, foreign: seq<TrackedDetection>)

  function Run(inputs: seq<PassInput>): AgentState {
    if inputs == [] then NewAgent
    else
      var input := inputs[|inputs| - 1];
      Pass(Run(inputs[..|inputs| - 1]), input.wantByteTrack, input.detections, input.foreign)
  }

  lemma {:induction false} RunKeepsInv(inputs: seq<PassInput>)
    ensures Inv(Run(inputs))
  {
    if inputs != [] {
      RunKeepsInv(inputs[..|inputs| - 1]);
      var input := inputs[|inputs| - 1];
      PassKeepsInv(Run(inputs[..|inputs| - 1]), input.wantByteTrack, input.detections, input.foreign);
      hide Inv;
      hide Pass;
    }
  }

  /**
   * Over any run of passes and tracker switches: the IoU tracker's live tracks are exactly the records;
   * a track key has one id for as long as its tracker exists and no id names two tracks; and an id
   * gets at most one best shot.
   */
  lemma TracksKeepTheirIdentity(inputs: seq<PassInput>)
    ensures var s := Run(inputs);
            && (s.tracker.Iou? ==> s.records.Keys == Ages(s.tracker.state.tracks).Keys)
            && OneIdPerTrack(s.reports)
            && Distinct(s.shots)
  {
    RunKeepsInv(inputs);
    var s := Run(inputs);
    hide Run;
    if s.tracker.Iou? {
      InStepKeysBelow(s);
    }
  }

  lemma RunStep(inputs: seq<PassInput>)
    requires inputs != []
    ensures var n := |inputs| - 1;
      Run(inputs) == Pass(Run(inputs[..n]), inputs[n].wantByteTrack, inputs[n].detections, inputs[n].foreign)
  {
  }

  predicate IsTracker(tracker: ActiveTracker, byteTrack: bool) {
    if byteTrack then tracker.ByteTrack? else tracker.Iou?
  }

  lemma PassTracker(s: AgentState, input: PassInput)
    ensures var t := Pass(s, input.wantByteTrack, input.detections, input.foreign);
      && IsTracker(t.tracker, input.wantByteTrack)
      && t.epoch == s.epoch + One(!IsTracker(s.tracker, input.wantByteTrack))
      && |s.reports| <= |t.reports|
      && forall i | |s.reports| <= i < |t.reports| ::
           t.reports[i].epoch == t.epoch && t.reports[i].iou == !input.wantByteTrack
  {
    hide Report;
    hide BestShots;
    hide Update;
  }

  lemma SwitchForgets(s: AgentState, input: PassInput)
    requires !IsTracker(s.tracker, input.wantByteTrack)
    ensures var t := Pass(s, input.wantByteTrack, input.detections, input.foreign);
      forall key | key in t.records :: t.records[key].firstReportedInference == s.inferenceIndex + 1
  {
    var m := Tracked(s, input.wantByteTrack, input.detections);
    assert m.records == map[] && m.inferenceIndex == s.inferenceIndex + 1;
    RecordedFacts(m, Tracks(s, input.wantByteTrack, input.detections, input.foreign));
    hide Report;
    hide BestShots;
    hide Tracked;
    hide Tracks;
    hide DistinctIds;
    hide IdsOf;
  }

  predicate WasReported(tracked: seq<TrackedDetection>, key: int) {
    exists i :: 0 <= i < |tracked| && tracked[i].trackKey == key
  }

  /** Recording a pass keeps exactly the records reported in it or in one of the ten passes before. */
  lemma RecordLivesIff(s: AgentState, tracked: seq<TrackedDetection>, key: int)
    requires IdsValid(s)
    ensures var t := Recorded(s, tracked);
      && (key in t.records <==>
            WasReported(tracked, key)
            || (key in s.records && s.inferenceIndex - s.records[key].lastReportedInference <= 10))
      && (key in t.records ==>
            t.records[key].lastReportedInference ==
              if WasReported(tracked, key) then s.inferenceIndex else s.records[key].lastReportedInference)
  {
    RecordedFacts(s, tracked);
    ReportAges(s.records, tracked, s.inferenceIndex, s.nextUuid, |tracked|);
    SeenIff(tracked, key);
    hide Report;
    hide BestShots;
    hide DistinctIds;
    hide IdsOf;
    hide Seen;
    hide WasReported;
    hide Extends;
    var records := Report(s.records, tracked, s.inferenceIndex, s.nextUuid, |tracked|).0;
    AgeOf(records, key);
    AgeOf(s.records, key);
  }

  lemma SeenIff(tracked: seq<TrackedDetection>, key: int)
    ensures key in Seen(tracked, |tracked|) <==> WasReported(tracked, key)
  {
  }

  lemma AgeOf(records: Records, key: int)
    ensures key in LastReported(records) <==> key in records
    ensures key in records ==> LastReported(records)[key] == records[key].lastReportedInference
  {
  }

  /** The tracker has to be made in the pass: it is the first, or the pass before had the other one. */
  predicate Switches(inputs: seq<PassInput>, n: nat)
    requires n < |inputs|
  {
    n == 0 || inputs[n].wantByteTrack != inputs[n - 1].wantByteTrack
  }

  /**
   * Over any run: a pass tracks with the tracker asked for in it. That is a new one, and all records begin with the
   * pass, exactly when the pass before had the other or there was none.
   */
  lemma TrackerFollowsRequest(inputs: seq<PassInput>)
    requires inputs != []
    ensures var n := |inputs| - 1;
      var before, s := Run(inputs[..n]), Run(inputs);
      && IsTracker(s.tracker, inputs[n].wantByteTrack)
      && s.epoch == before.epoch + One(Switches(inputs, n))
      && |before.reports| <= |s.reports|
      && (forall i | |before.reports| <= i < |s.reports| ::
            s.reports[i].epoch == s.epoch && s.reports[i].iou == !inputs[n].wantByteTrack)
      && (Switches(inputs, n) ==>
            forall key | key in s.records :: s.records[key].firstReportedInference == before.inferenceIndex + 1)
  {
    var n := |inputs| - 1;
    var front := inputs[..n];
    var before := Run(front);
    RunStep(inputs);
    if n > 0 {
      RunStep(front);
      PassTracker(Run(front[..n - 1]), inputs[n - 1]);
    }
    hide Run;
    hide Pass;
    PassTracker(before, inputs[n]);
    if Switches(inputs, n) {
      SwitchForgets(before, inputs[n]);
    }
  }

  lemma SomeKey(keys: set<int>)
    requires keys != {}
    ensures exists key :: key in keys
  {
    assert (forall key :: key !in keys) ==> keys == {};
  }

  lemma IsExpired(records: Records, left: Records, index: int)
    requires forall key :: key in left <==>
      (key in records && index - records[key].lastReportedInference <= TRACK_EXPIRY_INFERENCES)
    requires forall key :: key in left ==> left[key] == records[key]
    ensures left == Expired(records, index)
  {
    var expired := Expired(records, index);
    assert forall key :: key in left <==> key in expired;
    assert forall key :: key in left ==> left[key] == expired[key];
  }

  lemma NoKey(keys: set<int>)
    requires keys == {}
    ensures forall key :: key !in keys
  {
  }

  // ---- the code --------------------------------------------------------------------------------------

  class BaseDeviceAgent {
    var tracker: Tracker?
    var trackerIsByteTrack: bool
    var trackRecords: Records
    var inferenceIndex: int
    var nextUuid: nat
    ghost var epoch: nat
    ghost var reports: seq<Reported>
    ghost var shots: seq<nat>

    /** A null tracker stands for ByteTrack once ByteTrack was requested. */
    ghost predicate Valid()
      reads this, tracker
    {
      && (tracker != null ==> !trackerIsByteTrack && tracker.params == IOU_PARAMS)
    }

    ghost function State(): AgentState
      reads this, tracker
    {
      AgentState(if tracker != null then Iou(tracker.State()) else if trackerIsByteTrack then ByteTrack else NoTracker,
                 trackRecords, inferenceIndex, nextUuid, epoch, reports, shots)
    }

    constructor ()
      ensures Valid() && State() == NewAgent
    {
      tracker, trackerIsByteTrack, trackRecords := null, false, map[];
      inferenceIndex, nextUuid, epoch, reports, shots := 0, 0, 0, [], [];
    }

    method EnsureRequestedTracker(wantByteTrack: bool)
      requires Valid()
      modifies this
      ensures Valid() && State() == Ensured(old(State()), wantByteTrack)
      ensures tracker == old(tracker) || tracker == null || fresh(tracker)
    {
      if (tracker != null || trackerIsByteTrack) && wantByteTrack == trackerIsByteTrack {
        return;
      }
      if wantByteTrack {
        tracker := null;
      } else {
        tracker := new Tracker(IOU_PARAMS);
      }
      trackerIsByteTrack := wantByteTrack;
      trackRecords := map[];
      epoch := epoch + 1;
    }

    method UpdateTrackRecords(tracked: seq<TrackedDetection>) returns (uuids: seq<nat>)
      modifies this`trackRecords, this`nextUuid
      ensures var (records, ids, next) := Report(old(trackRecords), tracked, inferenceIndex, old(nextUuid), |tracked|);
              uuids == ids && nextUuid == next && trackRecords == Expired(records, inferenceIndex)
    {
      uuids := [];
      for k := 0 to |tracked|
        invariant (trackRecords, uuids, nextUuid) ==
          Report(old(trackRecords), tracked, inferenceIndex, old(nextUuid), k)
      {
        var key := tracked[k].trackKey;
        ghost var current := trackRecords;
        if key !in trackRecords {
          trackRecords := trackRecords[key := TrackRecord(nextUuid, inferenceIndex, inferenceIndex, false)];
          nextUuid := nextUuid + 1;
        }
        trackRecords := trackRecords[key := trackRecords[key].(lastReportedInference := inferenceIndex)];
        assert key !in current ==>
          trackRecords == current[key := TrackRecord(nextUuid - 1, inferenceIndex, inferenceIndex, false)];
        uuids := uuids + [trackRecords[key].uuid];
      }
      hide Report;
      EraseExpired();
    }

    method EraseExpired()
      modifies this`trackRecords
      ensures trackRecords == Expired(old(trackRecords), inferenceIndex)
    {
      ghost var reported := trackRecords;
      var todo := trackRecords.Keys;
      while todo != {}
        invariant todo <= reported.Keys
        invariant forall k :: k in trackRecords <==>
            (k in reported
             && (k in todo || inferenceIndex - reported[k].lastReportedInference <= TRACK_EXPIRY_INFERENCES))
        invariant forall k :: k in trackRecords ==> trackRecords[k] == reported[k]
        decreases |todo|
      {
        SomeKey(todo);
        var key :| key in todo;
        todo := todo - {key};
        if inferenceIndex - trackRecords[key].lastReportedInference > TRACK_EXPIRY_INFERENCES {
          trackRecords := trackRecords - {key};
        }
      }
      NoKey(todo);
      IsExpired(reported, trackRecords, inferenceIndex);
    }

    method CollectBestShots(tracked: seq<TrackedDetection>, uuids: seq<nat>) returns (packets: seq<nat>)
      requires |tracked| == |uuids|
      modifies this`trackRecords
      ensures (trackRecords, packets) == BestShots(old(trackRecords), tracked, uuids, inferenceIndex, |tracked|)
    {
      packets := [];
      for i := 0 to |tracked|
        invariant (trackRecords, packets) == BestShots(old(trackRecords), tracked, uuids, inferenceIndex, i)
      {
        var key := tracked[i].trackKey;
        if key !in trackRecords || trackRecords[key].bestShotSent {
          continue;
        }
        if inferenceIndex - trackRecords[key].firstReportedInference < BEST_SHOT_DELAY_INFERENCES {
          continue;
        }
        packets := packets + [uuids[i]];
        trackRecords := trackRecords[key := trackRecords[key].(bestShotSent := true)];
      }
    }

    method RecordPass(tracked: seq<TrackedDetection>) returns (uuids: seq<nat>, packets: seq<nat>)
      requires Valid()
      modifies this`trackRecords, this`nextUuid, this`reports, this`shots
      ensures Valid() && State() == Recorded(old(State()), tracked)
    {
      hide Report;
      hide BestShots;
      hide Expired;
      uuids := UpdateTrackRecords(tracked);
      packets := CollectBestShots(tracked, uuids);
      reports := reports + Entries(State(), tracked, uuids);
      shots := shots + packets;
    }

    /** One iteration of the worker loop. */
    method InferencePass(wantByteTrack: bool, detections: seq<Detection>, foreign: seq<TrackedDetection>)
      returns (uuids: seq<nat>, packets: seq<nat>)
      requires Valid()
      modifies this, tracker
      ensures Valid() && State() == Pass(old(State()), wantByteTrack, detections, foreign)
    {
      hide Update;
      hide Recorded;
      inferenceIndex := inferenceIndex + 1;
      EnsureRequestedTracker(wantByteTrack);
      var tracked := foreign;
      if tracker != null {
        tracked := tracker.Advance(detections);
      }
      uuids, packets := RecordPass(tracked);
    }
  }
}
