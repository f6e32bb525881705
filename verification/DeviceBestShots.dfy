/** When a track's best shot goes out: over every run of passes and tracker switches. */
module DeviceBestShots {
  import opened Detections
  import opened DeviceAgent
  import opened IouTracker
  import opened Seqs

  // ---- the first report of an id ----------------------------------------------------------------------------

  predicate FirstReport(reports: seq<Reported>, i: nat, uuid: nat) {
    i < |reports| && reports[i].uuid == uuid && forall j | 0 <= j < i :: reports[j].uuid != uuid
  }

  /** The id was first reported in pass `pass`. */
  ghost predicate FirstReportedIn(reports: seq<Reported>, uuid: nat, pass: int) {
    exists i: nat :: FirstReport(reports, i, uuid) && reports[i].pass == pass
  }

  /** Each record remembers the pass of its id's first report. */
  ghost predicate FirstsOk(s: AgentState) {
    forall key | key in s.records :: FirstReportedIn(s.reports, s.records[key].uuid, s.records[key].firstReportedInference)
  }

  lemma FirstStays(reports: seq<Reported>, more: seq<Reported>, uuid: nat, pass: int)
    requires FirstReportedIn(reports, uuid, pass)
    ensures FirstReportedIn(reports + more, uuid, pass)
  {
    var i: nat :| FirstReport(reports, i, uuid) && reports[i].pass == pass;
    assert FirstReport(reports + more, i, uuid) && (reports + more)[i] == reports[i];
  }

  lemma FirstIsNew(reports: seq<Reported>, more: seq<Reported>, uuid: nat, pass: int, i: nat)
    requires forall j | 0 <= j < |reports| :: reports[j].uuid != uuid
    requires i < |more| && more[i].uuid == uuid && forall j | 0 <= j < |more| :: more[j].pass == pass
    ensures FirstReportedIn(reports + more, uuid, pass)
    decreases i
  {
    if j: nat :| j < i && more[j].uuid == uuid {
      FirstIsNew(reports, more, uuid, pass, j);
    } else {
      var all := reports + more;
      forall j | 0 <= j < |reports| + i
        ensures all[j].uuid != uuid
      {
        if j >= |reports| {
          assert all[j] == more[j - |reports|];
        }
      }
      assert FirstReport(all, |reports| + i, uuid) && all[|reports| + i] == more[i];
    }
  }

  lemma OneFirstReport(reports: seq<Reported>, uuid: nat, a: int, b: int)
    requires FirstReportedIn(reports, uuid, a) && FirstReportedIn(reports, uuid, b)
    ensures a == b
  {
    var i: nat :| FirstReport(reports, i, uuid) && reports[i].pass == a;
    var j: nat :| FirstReport(reports, j, uuid) && reports[j].pass == b;
    assert i == j;
  }

  // ---- which records get a shot -----------------------------------------------------------------------------

  lemma ReportKeeps(records: Records, after: Records, index: int, nextUuid: nat, next: nat, key: int)
    requires Extends(records, after, index, nextUuid, next) && key in after
    ensures if key in records
      then after[key].uuid == records[key].uuid
        && after[key].firstReportedInference == records[key].firstReportedInference
      else nextUuid <= after[key].uuid && after[key].firstReportedInference == index
  {
    if key in records {
      assert after[key] == records[key].(lastReportedInference := after[key].lastReportedInference);
    }
  }

  lemma MarkKeeps(records: Records, after: Records, shots: seq<nat>, index: int, key: int)
    requires Marks(records, after, shots, index) && key in records
    ensures key in after && after[key] == records[key].(bestShotSent := after[key].bestShotSent)
  {
  }

  /** The i-th detection reported is of a due record, with this id. */
  predicate DueAt(records: Records, tracked: seq<TrackedDetection>, uuids: seq<nat>, index: int, k: nat, i: nat, u: nat)
    requires k <= |tracked| == |uuids|
  {
    i < k && tracked[i].trackKey in records && Due(records[tracked[i].trackKey], index) && uuids[i] == u
  }

  /** Every due record reported gets its shot, and every shot is of a detection reported. */
  lemma {:induction false} AllDueGetOne(
    records: Records, tracked: seq<TrackedDetection>, uuids: seq<nat>, index: int, k: nat)
    requires k <= |tracked| && IdsOf(records, tracked, uuids) && DistinctIds(records)
    ensures var (after, shots) := BestShots(records, tracked, uuids, index, k);
      && (forall i | 0 <= i < k && tracked[i].trackKey in records && Due(records[tracked[i].trackKey], index) ::
            uuids[i] in shots)
      && (forall u | u in shots :: exists i: nat :: DueAt(records, tracked, uuids, index, k, i, u))
  {
    if k > 0 {
      AllDueGetOne(records, tracked, uuids, index, k - 1);
      BestShotsMark(records, tracked, uuids, index, k - 1);
      var (current, shots) := BestShots(records, tracked, uuids, index, k - 1);
      var key := tracked[k - 1].trackKey;
      if key in records {
        MarkKeeps(records, current, shots, index, key);
        SentIff(records, current, shots, index, key);
      }
      hide Marks;
      var all := BestShots(records, tracked, uuids, index, k).1;
      forall u | u in all
        ensures exists i: nat :: DueAt(records, tracked, uuids, index, k, i, u)
      {
        if u in shots {
          var i: nat :| DueAt(records, tracked, uuids, index, k - 1, i, u);
          assert DueAt(records, tracked, uuids, index, k, i, u);
        } else {
          assert DueAt(records, tracked, uuids, index, k, k - 1, u);
        }
      }
    }
  }

  lemma SentIff(records: Records, current: Records, shots: seq<nat>, index: int, key: int)
    requires Marks(records, current, shots, index) && key in records
    ensures key in current && (current[key].bestShotSent <==> records[key].bestShotSent || records[key].uuid in shots)
  {
  }

  // ---- a pass -----------------------------------------------------------------------------------------------

  /** The parts of recording a pass. */
  ghost predicate Parts(t: AgentState, tracked: seq<TrackedDetection>, records: Records, uuids: seq<nat>, next: nat,
                        marked: Records, shots: seq<nat>) {
    && Report(t.records, tracked, t.inferenceIndex, t.nextUuid, |tracked|) == (records, uuids, next)
    && |uuids| == |tracked|
    && BestShots(Expired(records, t.inferenceIndex), tracked, uuids, t.inferenceIndex, |tracked|) == (marked, shots)
  }

  lemma RecordedParts(t: AgentState, tracked: seq<TrackedDetection>)
    returns (records: Records, uuids: seq<nat>, next: nat, marked: Records, shots: seq<nat>)
    ensures Parts(t, tracked, records, uuids, next, marked, shots)
    ensures Recorded(t, tracked) ==
      t.(records := marked, nextUuid := next, reports := t.reports + Entries(t, tracked, uuids), shots := t.shots + shots)
  {
    var (r, u, n) := Report(t.records, tracked, t.inferenceIndex, t.nextUuid, |tracked|);
    records, uuids, next := r, u, n;
    var (m, h) := BestShots(Expired(records, t.inferenceIndex), tracked, uuids, t.inferenceIndex, |tracked|);
    marked, shots := m, h;
    hide Report;
    hide BestShots;
  }

  lemma RecordedFirsts(t: AgentState, tracked: seq<TrackedDetection>)
    requires IdsValid(t) && FirstsOk(t)
    ensures FirstsOk(Recorded(t, tracked))
  {
    RecordedFacts(t, tracked);
    var records, uuids, next, marked, shots := RecordedParts(t, tracked);
    var expired := Expired(records, t.inferenceIndex);
    var more := Entries(t, tracked, uuids);
    var s' := Recorded(t, tracked);
    hide Recorded;
    hide Report;
    hide BestShots;
    forall key | key in s'.records
      ensures FirstReportedIn(s'.reports, s'.records[key].uuid, s'.records[key].firstReportedInference)
    {
      assert key in expired && key in records by {
        MarksKeys(expired, marked, shots, t.inferenceIndex);
      }
      MarkKeeps(expired, marked, shots, t.inferenceIndex, key);
      ReportKeeps(t.records, records, t.inferenceIndex, t.nextUuid, next, key);
      if key in t.records {
        FirstStays(t.reports, more, records[key].uuid, records[key].firstReportedInference);
      } else {
        var i := NewKeysAreReported(t, tracked, key);
        NewReport(t, tracked, i);
        assert more[i].uuid == records[key].uuid;
        FirstIsNew(t.reports, more, records[key].uuid, t.inferenceIndex, i);
      }
      hide Marks;
      hide Extends;
    }
    hide Marks;
    hide Extends;
  }

  lemma MarksKeys(records: Records, after: Records, shots: seq<nat>, index: int)
    requires Marks(records, after, shots, index)
    ensures after.Keys == records.Keys
  {
  }

  /** An id gets its shot in this pass: reported now, first reported at least three passes ago, and without one so far. */
  ghost predicate ShotDue(t: AgentState, s': AgentState, uuid: nat) {
    && |t.reports| <= |s'.reports|
    && (exists i :: |t.reports| <= i < |s'.reports| && s'.reports[i].uuid == uuid)
    && uuid !in t.shots
    && (exists first: int :: FirstReportedIn(s'.reports, uuid, first) && t.inferenceIndex - first >= 3)
  }

  lemma ReportedIsDueIff(t: AgentState, tracked: seq<TrackedDetection>, records: Records, uuids: seq<nat>, next: nat,
                         marked: Records, shots: seq<nat>, s': AgentState, i: nat)
    requires IdsValid(t) && i < |tracked| && Parts(t, tracked, records, uuids, next, marked, shots) && FirstsOk(s')
    requires s' == t.(records := marked, nextUuid := next, reports := t.reports + Entries(t, tracked, uuids),
                      shots := t.shots + shots)
    requires Marks(Expired(records, t.inferenceIndex), marked, shots, t.inferenceIndex)
    requires forall key | key in records :: records[key].bestShotSent <==> records[key].uuid in t.shots
    ensures var key := tracked[i].trackKey;
      && key in records && uuids[i] == records[key].uuid && key in Expired(records, t.inferenceIndex)
      && (Due(records[key], t.inferenceIndex) <==> ShotDue(t, s', uuids[i]))
  {
    var key := tracked[i].trackKey;
    NewReport(t, tracked, i);
    ReportAges(t.records, tracked, t.inferenceIndex, t.nextUuid, |tracked|);
    hide Report;
    hide BestShots;
    assert key in Seen(tracked, |tracked|);
    assert LastReported(records)[key] == t.inferenceIndex;
    assert records[key].lastReportedInference == t.inferenceIndex;
    MarkKeeps(Expired(records, t.inferenceIndex), marked, shots, t.inferenceIndex, key);
    hide Marks;
    assert s'.reports[|t.reports| + i].uuid == uuids[i];
    assert FirstReportedIn(s'.reports, uuids[i], records[key].firstReportedInference);
    hide FirstReportedIn;
    if first: int :| FirstReportedIn(s'.reports, uuids[i], first) && t.inferenceIndex - first >= 3 {
      OneFirstReport(s'.reports, uuids[i], first, records[key].firstReportedInference);
    }
  }

  lemma ShotsAreDue(t: AgentState, tracked: seq<TrackedDetection>, expired: Records, uuids: seq<nat>, shots: seq<nat>,
                    s': AgentState, uuid: nat)
    requires |uuids| == |tracked| && |s'.reports| == |t.reports| + |tracked|
    requires forall i | 0 <= i < |tracked| :: s'.reports[|t.reports| + i].uuid == uuids[i]
    requires forall i | 0 <= i < |tracked| ::
      tracked[i].trackKey in expired && (Due(expired[tracked[i].trackKey], t.inferenceIndex) <==> ShotDue(t, s', uuids[i]))
    requires forall i | 0 <= i < |tracked| && Due(expired[tracked[i].trackKey], t.inferenceIndex) :: uuids[i] in shots
    requires forall u | u in shots :: exists i: nat :: DueAt(expired, tracked, uuids, t.inferenceIndex, |tracked|, i, u)
    ensures uuid in shots <==> ShotDue(t, s', uuid)
  {
    if ShotDue(t, s', uuid) {
      var i :| |t.reports| <= i < |s'.reports| && s'.reports[i].uuid == uuid;
      assert s'.reports[|t.reports| + (i - |t.reports|)].uuid == uuids[i - |t.reports|];
      hide ShotDue;
      hide Due;
    }
  }

  /** What recording a pass promises about ids, flags and shots. */
  lemma RecordedShotParts(t: AgentState, tracked: seq<TrackedDetection>)
    returns (records: Records, uuids: seq<nat>, next: nat, marked: Records, shots: seq<nat>)
    requires IdsValid(t) && ShotsValid(t) && FirstsOk(t)
    ensures Parts(t, tracked, records, uuids, next, marked, shots)
    ensures Recorded(t, tracked) ==
      t.(records := marked, nextUuid := next, reports := t.reports + Entries(t, tracked, uuids), shots := t.shots + shots)
    ensures Marks(Expired(records, t.inferenceIndex), marked, shots, t.inferenceIndex)
    ensures forall key | key in records :: records[key].bestShotSent <==> records[key].uuid in t.shots
    ensures forall i | 0 <= i < |tracked| :: tracked[i].trackKey in records
    ensures var expired := Expired(records, t.inferenceIndex);
      && (forall i | 0 <= i < |tracked| && tracked[i].trackKey in expired
            && Due(expired[tracked[i].trackKey], t.inferenceIndex) :: uuids[i] in shots)
      && (forall u | u in shots ::
            exists i: nat :: DueAt(expired, tracked, uuids, t.inferenceIndex, |tracked|, i, u))
  {
    RecordedFacts(t, tracked);
    records, uuids, next, marked, shots := RecordedParts(t, tracked);
    FlagsStay(t, records, next);
    var expired := Expired(records, t.inferenceIndex);
    hide Recorded;
    hide Report;
    hide Extends;
    hide Marks;
    AllDueGetOne(expired, tracked, uuids, t.inferenceIndex, |tracked|);
    hide BestShots;
  }

  lemma RecordedShots(t: AgentState, tracked: seq<TrackedDetection>, uuid: nat)
    requires IdsValid(t) && ShotsValid(t) && FirstsOk(t)
    ensures var s' := Recorded(t, tracked);
      t.shots <= s'.shots && (uuid in s'.shots[|t.shots|..] <==> ShotDue(t, s', uuid))
  {
    hide *;
    RecordedFirsts(t, tracked);
    var records, uuids, next, marked, shots := RecordedShotParts(t, tracked);
    var s' := Recorded(t, tracked);
    assert s'.shots[|t.shots|..] == shots;
    EntriesAre(t, tracked, records, uuids, next, marked, shots);
    forall i | 0 <= i < |tracked|
      ensures i < |uuids| && tracked[i].trackKey in Expired(records, t.inferenceIndex)
      ensures Due(Expired(records, t.inferenceIndex)[tracked[i].trackKey], t.inferenceIndex) <==>
        ShotDue(t, s', uuids[i])
    {
      ReportedIsDueIff(t, tracked, records, uuids, next, marked, shots, s', i);
      ExpiredKeeps(records, t.inferenceIndex, tracked[i].trackKey);
    }
    ShotsAreDue(t, tracked, Expired(records, t.inferenceIndex), uuids, shots, s', uuid);
  }

  lemma ExpiredKeeps(records: Records, index: int, key: int)
    requires key in Expired(records, index)
    ensures key in records && Expired(records, index)[key] == records[key]
  {
  }

  lemma EntriesAre(t: AgentState, tracked: seq<TrackedDetection>, records: Records, uuids: seq<nat>, next: nat,
                   marked: Records, shots: seq<nat>)
    requires Parts(t, tracked, records, uuids, next, marked, shots)
    ensures |uuids| == |tracked| == |Entries(t, tracked, uuids)|
    ensures forall i | 0 <= i < |tracked| :: Entries(t, tracked, uuids)[i].uuid == uuids[i]
  {
    hide Report;
    hide BestShots;
  }

  // ---- every run --------------------------------------------------------------------------------------------

  lemma TrackedKeeps(s: AgentState, input: PassInput)
    requires Inv(s) && FirstsOk(s)
    ensures var t := Tracked(s, input.wantByteTrack, input.detections);
      && IdsValid(t) && ShotsValid(t) && FirstsOk(t) && t.reports == s.reports && t.shots == s.shots
      && t.inferenceIndex == s.inferenceIndex + 1
  {
    hide Update;
    hide InStep;
  }

  lemma {:induction false} RunKeepsFirsts(inputs: seq<PassInput>)
    ensures FirstsOk(Run(inputs)) && Run(inputs).inferenceIndex == |inputs|
  {
    if inputs != [] {
      var front, input := inputs[..|inputs| - 1], inputs[|inputs| - 1];
      RunKeepsFirsts(front);
      RunKeepsInv(front);
      TrackedKeeps(Run(front), input);
      var t := Tracked(Run(front), input.wantByteTrack, input.detections);
      hide Tracked;
      hide Inv;
      hide FirstsOk;
      hide IdsValid;
      RecordedFirsts(t, Tracks(Run(front), input.wantByteTrack, input.detections, input.foreign));
      hide Tracks;
    }
  }

  /**
   * In every run: the n-th pass sends a best shot for an id exactly if it reports the id, the id was first reported at
   * least three passes earlier, and no best shot of it went out before.
   */
  lemma BestShotIff(inputs: seq<PassInput>, uuid: nat)
    requires inputs != []
    ensures var s, s' := Run(inputs[..|inputs| - 1]), Run(inputs);
      && s.shots <= s'.shots && s.reports <= s'.reports
      && (uuid in s'.shots[|s.shots|..] <==>
            && (exists i :: |s.reports| <= i < |s'.reports| && s'.reports[i].uuid == uuid)
            && uuid !in s.shots
            && (exists first: int :: FirstReportedIn(s'.reports, uuid, first) && |inputs| - first >= 3))
  {
    var front, input := inputs[..|inputs| - 1], inputs[|inputs| - 1];
    RunKeepsFirsts(front);
    RunKeepsInv(front);
    TrackedKeeps(Run(front), input);
    var t := Tracked(Run(front), input.wantByteTrack, input.detections);
    var tracked := Tracks(Run(front), input.wantByteTrack, input.detections, input.foreign);
    hide Tracked;
    hide Tracks;
    hide Inv;
    RecordedShots(t, tracked, uuid);
    var records, uuids, next, marked, shots := RecordedParts(t, tracked);
    hide FirstsOk;
    hide IdsValid;
    hide ShotsValid;
    hide FirstReportedIn;
  }

  /** Every report of the n-th pass carries its number, so a first report tells when the id began. */
  lemma ReportsTellTheirPass(inputs: seq<PassInput>, i: nat)
    requires inputs != [] && |Run(inputs[..|inputs| - 1]).reports| <= i < |Run(inputs).reports|
    ensures Run(inputs).reports[i].pass == |inputs|
  {
    var front, input := inputs[..|inputs| - 1], inputs[|inputs| - 1];
    RunKeepsFirsts(front);
    RunKeepsInv(front);
    TrackedKeeps(Run(front), input);
    var t := Tracked(Run(front), input.wantByteTrack, input.detections);
    hide Tracked;
    hide Inv;
    hide FirstsOk;
    hide IdsValid;
    hide ShotsValid;
    var records, uuids, next, marked, shots :=
      RecordedParts(t, Tracks(Run(front), input.wantByteTrack, input.detections, input.foreign));
    hide Tracks;
    hide Recorded;
  }
}
