/** One dining table's occupancy: a debounced state machine over the frames of its camera. */
module TableZone {
  import opened Options
  import opened Seqs

  datatype Status = Empty | Occupied

  /** The thresholds a live config change may swap between two frames. */
  datatype Rules = Rules(minOccupied: real, debounce: real, track: bool)

  datatype Frame = Frame(persons: nat, now: real, rules: Rules)

  datatype Zone = Zone(
    status: Status, firstSeen: Option<real>, lastSeen: Option<real>, since: Option<real>, dwell: int, sessions: nat)

  datatype Change = Stays | Fills | Clears(dwell: int)

  const NewZone := Zone(Empty, None, None, None, 0, 0)

  /** Seconds without a person after which a sighting no longer counts. */
  const DROP_SEC := 2.0

  function Dwell(since: real, now: real): int {
    if now - since < 0.0 then 0 else (now - since).Floor
  }

  function Counting(z: Zone, f: Frame): Zone {
    if z.since.Some? && f.rules.track then z.(dwell := Dwell(z.since.value, f.now)) else z
  }

  /** A frame with persons. */
  function Present(z: Zone, f: Frame): (Zone, Change) {
    var seen := z.(lastSeen := Some(f.now));
    if z.status.Occupied? then (Counting(seen.(dwell := 0), f), Stays)
    else
      var first := if z.firstSeen.Some? then z.firstSeen.value else f.now;
      var sighted := seen.(firstSeen := Some(first));
      if f.now - first >= f.rules.minOccupied || f.rules.minOccupied <= 0.0
      then (sighted.(status := Occupied, since := Some(f.now), dwell := 0, sessions := z.sessions + 1), Fills)
      else (sighted, Stays)
  }

  /** Whether a time is set; zero counts as unset. */
  predicate IsSet(time: Option<real>) {
    time.Some? && time.value != 0.0
  }

  /** A frame without persons. */
  function Absent(z: Zone, f: Frame): (Zone, Change) {
    var kept := if IsSet(z.lastSeen) && f.now - z.lastSeen.value > DROP_SEC then z.(firstSeen := None) else z;
    if z.status.Empty? then (kept, Stays)
    else
      var idle := if IsSet(z.lastSeen) then f.now - z.lastSeen.value else 0.0;
      if idle >= f.rules.debounce
      then (kept.(status := Empty, since := None, dwell := 0), Clears(z.dwell))
      else (Counting(kept, f), Stays)
  }

  function Updated(z: Zone, f: Frame): (Zone, Change) {
    if f.persons > 0 then Present(z, f) else Absent(z, f)
  }

  function Run(frames: seq<Frame>): Zone {
    if frames == [] then NewZone else Updated(Run(frames[..|frames| - 1]), frames[|frames| - 1]).0
  }

  function ChangeAt(frames: seq<Frame>, n: nat): Change
    requires n < |frames|
  {
    Updated(Run(frames[..n]), frames[n]).1
  }

  // ---- counting transitions ------------------------------------------------------------------------------

  function Fillings(frames: seq<Frame>): nat {
    if frames == [] then 0 else Fillings(frames[..|frames| - 1]) + One(ChangeAt(frames, |frames| - 1).Fills?)
  }

  function Clearings(frames: seq<Frame>): nat {
    if frames == [] then 0 else Clearings(frames[..|frames| - 1]) + One(ChangeAt(frames, |frames| - 1).Clears?)
  }

  /** The session count is the number of fillings, and fillings and clearings alternate, a filling first. */
  lemma {:induction false} TransitionsAlternate(frames: seq<Frame>)
    ensures Run(frames).sessions == Fillings(frames)
    ensures Fillings(frames) == Clearings(frames) + One(Run(frames).status.Occupied?)
  {
    if frames != [] {
      TransitionsAlternate(frames[..|frames| - 1]);
    }
  }

  // ---- when a table clears --------------------------------------------------------------------------------

  /** Frame `m` is the last one with a person. */
  predicate LastWithPerson(frames: seq<Frame>, m: nat) {
    m < |frames| && frames[m].persons > 0 && forall k | m < k < |frames| :: frames[k].persons == 0
  }

  /** Timestamps are positive: the frame's own, or the wall clock for a frame without one. */
  ghost predicate Timed(frames: seq<Frame>) {
    forall k | 0 <= k < |frames| :: frames[k].now > 0.0
  }

  lemma {:induction false} LastSeenIs(frames: seq<Frame>, m: nat)
    requires LastWithPerson(frames, m)
    ensures Run(frames).lastSeen == Some(frames[m].now)
  {
    if m < |frames| - 1 {
      LastSeenIs(frames[..|frames| - 1], m);
    }
  }

  lemma {:induction false} SomeoneWasSeen(frames: seq<Frame>) returns (m: nat)
    requires Run(frames).lastSeen.Some?
    ensures LastWithPerson(frames, m)
  {
    if frames[|frames| - 1].persons > 0 {
      m := |frames| - 1;
    } else {
      m := SomeoneWasSeen(frames[..|frames| - 1]);
    }
  }

  lemma {:induction false} OccupiedWasSeen(frames: seq<Frame>)
    requires Run(frames).status.Occupied? || Run(frames).firstSeen.Some?
    ensures Run(frames).lastSeen.Some?
  {
    if frames[|frames| - 1].persons == 0 {
      OccupiedWasSeen(frames[..|frames| - 1]);
    }
  }

  ghost predicate ClearsAfterDebounce(frames: seq<Frame>, n: nat)
    requires n < |frames|
  {
    exists m: nat :: LastWithPerson(frames[..n], m) && frames[n].now - frames[m].now >= frames[n].rules.debounce
  }

  /** A table clears exactly when it was occupied, no one is there, and no one was for the debounce time. */
  lemma ClearsIff(frames: seq<Frame>, n: nat)
    requires Timed(frames) && n < |frames|
    ensures ChangeAt(frames, n).Clears? <==>
      Run(frames[..n]).status.Occupied? && frames[n].persons == 0 && ClearsAfterDebounce(frames, n)
  {
    var z := Run(frames[..n]);
    if z.status.Occupied? && frames[n].persons == 0 {
      OccupiedWasSeen(frames[..n]);
      var m := SomeoneWasSeen(frames[..n]);
      LastSeenIs(frames[..n], m);
      assert frames[..n][m] == frames[m];
      assert forall other: nat | LastWithPerson(frames[..n], other) :: other == m by {
        forall other: nat | LastWithPerson(frames[..n], other)
          ensures other == m
        {
          assert frames[..n][other].persons > 0;
        }
      }
    }
  }

  // ---- when a table fills ---------------------------------------------------------------------------------

  /** A person at a table that was empty before the frame. */
  predicate Sighting(frames: seq<Frame>, m: nat) {
    m < |frames| && frames[m].persons > 0 && Run(frames[..m]).status.Empty?
  }

  /** A frame without persons more than two seconds after the last one with a person. */
  ghost predicate Forgets(frames: seq<Frame>, k: nat)
    requires k < |frames|
  {
    frames[k].persons == 0 && exists m: nat :: LastWithPerson(frames[..k], m) && frames[k].now - frames[m].now > 2.0
  }

  /** No frame after `m` made the table forget its sighting. */
  ghost predicate Remembered(frames: seq<Frame>, m: nat) {
    forall k | m < k < |frames| :: !Forgets(frames, k)
  }

  lemma ForgetsIff(frames: seq<Frame>, k: nat)
    requires Timed(frames) && k < |frames| && frames[k].persons == 0
    ensures Forgets(frames, k) <==>
      Run(frames[..k]).lastSeen.Some? && frames[k].now - Run(frames[..k]).lastSeen.value > DROP_SEC
  {
    if m: nat :| LastWithPerson(frames[..k], m) && frames[k].now - frames[m].now > DROP_SEC {
      LastSeenIs(frames[..k], m);
    }
    if Run(frames[..k]).lastSeen.Some? {
      var m := SomeoneWasSeen(frames[..k]);
      LastSeenIs(frames[..k], m);
      assert frames[..k][m] == frames[m];
    }
  }

  lemma {:induction false} LastSeenIsSet(frames: seq<Frame>)
    requires Timed(frames)
    ensures Run(frames).lastSeen.Some? ==> IsSet(Run(frames).lastSeen)
  {
    if frames != [] {
      LastSeenIsSet(frames[..|frames| - 1]);
    }
  }

  lemma FrontOf(frames: seq<Frame>, m: nat)
    requires m < |frames| - 1
    ensures Sighting(frames[..|frames| - 1], m) <==> Sighting(frames, m)
    ensures Remembered(frames, m) <==> Remembered(frames[..|frames| - 1], m) && !Forgets(frames, |frames| - 1)
  {
    var front := frames[..|frames| - 1];
    assert front[..m] == frames[..m];
    forall k | m < k < |front|
      ensures Forgets(front, k) <==> Forgets(frames, k)
    {
      assert front[..k] == frames[..k];
    }
    if Remembered(front, m) && !Forgets(frames, |frames| - 1) {
      forall k | m < k < |frames|
        ensures !Forgets(frames, k)
      {
        assert k < |front| ==> !Forgets(front, k);
      }
    }
    if Remembered(frames, m) {
      forall k | m < k < |front|
        ensures !Forgets(front, k)
      {
        assert !Forgets(frames, k);
      }
    }
  }

  /** The time the zone remembers is that of a sighting it did not forget. */
  lemma {:induction false} FirstSeenWasSighted(frames: seq<Frame>) returns (m: nat)
    requires Timed(frames) && Run(frames).firstSeen.Some?
    ensures Sighting(frames, m) && Remembered(frames, m) && Run(frames).firstSeen == Some(frames[m].now)
  {
    var n := |frames| - 1;
    var front := frames[..n];
    var z := Run(front);
    if z.firstSeen.Some? {
      m := FirstSeenWasSighted(front);
      assert front[m] == frames[m];
      FrontOf(frames, m);
      if frames[n].persons == 0 {
        ForgetsIff(frames, n);
        LastSeenIsSet(front);
      }
    } else {
      m := n;
    }
  }

  ghost predicate Ordered(frames: seq<Frame>) {
    forall j, k | 0 <= j < k < |frames| :: frames[j].now <= frames[k].now
  }

  /** A sighting that was not forgotten is remembered, by its own time or an earlier one. */
  lemma {:induction false} SightingIsRemembered(frames: seq<Frame>, m: nat)
    requires Timed(frames) && Ordered(frames) && Sighting(frames, m) && Remembered(frames, m)
    ensures Run(frames).firstSeen.Some? && Run(frames).firstSeen.value <= frames[m].now
  {
    var n := |frames| - 1;
    var front := frames[..n];
    if m == n {
      if Run(front).firstSeen.Some? {
        var j := FirstSeenWasSighted(front);
        assert front[j] == frames[j];
      }
    } else {
      FrontOf(frames, m);
      SightingIsRemembered(front, m);
      assert front[m] == frames[m];
      if frames[n].persons == 0 {
        ForgetsIff(frames, n);
        LastSeenIsSet(front);
      }
    }
  }

  /** A sighting not forgotten since, at least the minimum presence before the frame. */
  ghost predicate PresentLongEnough(frames: seq<Frame>, n: nat)
    requires n < |frames|
  {
    exists m: nat ::
      && Sighting(frames[..n + 1], m) && Remembered(frames[..n + 1], m)
      && (frames[n].now - frames[m].now >= frames[n].rules.minOccupied || frames[n].rules.minOccupied <= 0.0)
  }

  lemma FillingIsSighted(frames: seq<Frame>, n: nat)
    requires Timed(frames) && n < |frames| && ChangeAt(frames, n).Fills?
    ensures Run(frames[..n]).status.Empty? && frames[n].persons > 0 && PresentLongEnough(frames, n)
  {
    var upTo := frames[..n + 1];
    assert upTo[..n] == frames[..n] && upTo[n] == frames[n];
    var m := FirstSeenWasSighted(upTo);
    assert upTo[m] == frames[m];
  }

  lemma PresenceFills(frames: seq<Frame>, n: nat)
    requires Timed(frames) && Ordered(frames) && n < |frames|
    requires Run(frames[..n]).status.Empty? && frames[n].persons > 0 && PresentLongEnough(frames, n)
    ensures ChangeAt(frames, n).Fills?
  {
    var upTo := frames[..n + 1];
    assert upTo[..n] == frames[..n] && upTo[n] == frames[n];
    var m: nat :| Sighting(upTo, m) && Remembered(upTo, m)
      && (frames[n].now - frames[m].now >= frames[n].rules.minOccupied || frames[n].rules.minOccupied <= 0.0);
    assert upTo[m] == frames[m];
    assert Timed(upTo) && Ordered(upTo);
    SightingIsRemembered(upTo, m);
    hide *;
    assert Run(upTo) == Updated(Run(frames[..n]), frames[n]).0 by {
      RunStep(frames, n);
    }
    assert ChangeAt(frames, n) == Updated(Run(frames[..n]), frames[n]).1 by {
      RunStep(frames, n);
    }
    PresentFills(Run(frames[..n]), frames[n]);
  }

  lemma RunStep(frames: seq<Frame>, n: nat)
    requires n < |frames|
    ensures Run(frames[..n + 1]) == Updated(Run(frames[..n]), frames[n]).0
    ensures ChangeAt(frames, n) == Updated(Run(frames[..n]), frames[n]).1
  {
    assert frames[..n + 1][..n] == frames[..n];
  }

  lemma PresentFills(z: Zone, f: Frame)
    requires z.status.Empty? && f.persons > 0 && Updated(z, f).0.firstSeen.Some?
    requires f.now - Updated(z, f).0.firstSeen.value >= f.rules.minOccupied || f.rules.minOccupied <= 0.0
    ensures Updated(z, f).1.Fills?
  {
  }

  /**
   * A table fills exactly when it was empty, someone is there, and a sighting at least the minimum presence old was
   * not forgotten since.
   */
  lemma FillsIff(frames: seq<Frame>, n: nat)
    requires Timed(frames) && Ordered(frames) && n < |frames|
    ensures ChangeAt(frames, n).Fills? <==>
      Run(frames[..n]).status.Empty? && frames[n].persons > 0 && PresentLongEnough(frames, n)
  {
    if ChangeAt(frames, n).Fills? {
      FillingIsSighted(frames, n);
    } else if Run(frames[..n]).status.Empty? && frames[n].persons > 0 && PresentLongEnough(frames, n) {
      PresenceFills(frames, n);
    }
  }

  // ---- the dwell time --------------------------------------------------------------------------------------

  /** The table filled at frame `m` and has been occupied since. */
  predicate FilledAt(frames: seq<Frame>, m: nat) {
    m < |frames| && ChangeAt(frames, m).Fills? && forall k | m < k < |frames| :: ChangeAt(frames, k).Stays?
  }

  lemma FilledBefore(frames: seq<Frame>, m: nat)
    requires m < |frames| - 1 && FilledAt(frames[..|frames| - 1], m) && ChangeAt(frames, |frames| - 1).Stays?
    ensures FilledAt(frames, m)
  {
    var front := frames[..|frames| - 1];
    forall k | 0 <= k < |front|
      ensures ChangeAt(front, k) == ChangeAt(frames, k)
    {
      assert front[..k] == frames[..k];
    }
  }

  /** `d` is the time in whole seconds; zero for a time that ran backwards. */
  predicate IsWholeSeconds(d: int, time: real) {
    if time < 0.0 then d == 0 else d as real <= time < d as real + 1.0
  }

  /** The frame sets the dwell time of an occupied table: to zero if it is not tracked, else to the time since it filled. */
  predicate SetsDwell(f: Frame) {
    f.persons > 0 || f.rules.track
  }

  /** The dwell time is that of the last frame since the filling that set it. */
  ghost predicate DwellIs(frames: seq<Frame>, m: nat, d: int)
    requires m < |frames|
  {
    || (d == 0 && forall k | m < k < |frames| :: !SetsDwell(frames[k]))
    || (exists k: nat :: m < k < |frames| && LastSets(frames, k) && DwellSet(frames[k], frames[m].now, d))
  }

  predicate LastSets(frames: seq<Frame>, k: nat) {
    k < |frames| && SetsDwell(frames[k]) && forall j | k < j < |frames| :: !SetsDwell(frames[j])
  }

  predicate DwellSet(f: Frame, since: real, d: int) {
    if f.rules.track then IsWholeSeconds(d, f.now - since) else d == 0
  }

  /** While a table is occupied, its dwell time is the whole seconds from its filling to the last frame that set it. */
  lemma {:induction false} DwellCounts(frames: seq<Frame>) returns (m: nat)
    requires Run(frames).status.Occupied?
    ensures FilledAt(frames, m) && Run(frames).since == Some(frames[m].now) && DwellIs(frames, m, Run(frames).dwell)
  {
    var n := |frames| - 1;
    var front, last := frames[..n], frames[n];
    if Run(front).status.Occupied? {
      m := DwellCounts(front);
      assert front[m] == frames[m];
      FilledBefore(frames, m);
      DwellStep(Run(front), last, frames[m].now);
      if !SetsDwell(last) {
        DwellStays(front, last, m, Run(front).dwell);
        assert frames == front + [last];
      }
    } else {
      m := n;
    }
  }

  lemma DwellStep(z: Zone, f: Frame, since: real)
    requires z.status.Occupied? && Updated(z, f).0.status.Occupied? && z.since == Some(since)
    ensures var d := Updated(z, f).0.dwell;
      if !SetsDwell(f) then d == z.dwell
      else if f.rules.track then IsWholeSeconds(d, f.now - since)
      else d == 0
  {
  }

  lemma DwellStays(front: seq<Frame>, last: Frame, m: nat, d: int)
    requires m < |front| && DwellIs(front, m, d) && !SetsDwell(last)
    ensures DwellIs(front + [last], m, d)
  {
    var frames := front + [last];
    if k: nat :| m < k < |front| && LastSets(front, k) && DwellSet(front[k], front[m].now, d) {
      assert frames[k] == front[k] && frames[m] == front[m];
      assert LastSets(frames, k);
    } else {
      assert forall j | m < j < |frames| :: !SetsDwell(frames[j]);
    }
  }

  /** The dwell time reported when a table clears is the one from its filling to the last frame that set it. */
  lemma ClearedDwell(frames: seq<Frame>, n: nat) returns (m: nat)
    requires n < |frames| && ChangeAt(frames, n).Clears?
    ensures FilledAt(frames[..n], m) && DwellIs(frames[..n], m, ChangeAt(frames, n).dwell)
  {
    m := DwellCounts(frames[..n]);
  }

  // ---- the object -----------------------------------------------------------------------------------------

  class Table {
    var status: Status
    var firstSeen: Option<real>
    var lastSeen: Option<real>
    var since: Option<real>
    var dwell: int
    var sessions: nat

    ghost function Value(): Zone
      reads this
    {
      Zone(status, firstSeen, lastSeen, since, dwell, sessions)
    }

    constructor ()
      ensures Value() == NewZone
    {
      status, firstSeen, lastSeen, since, dwell, sessions := Empty, None, None, None, 0, 0;
    }

    method CountDwell(f: Frame)
      modifies this`dwell
      ensures Value() == Counting(old(Value()), f)
    {
      if since.Some? && f.rules.track {
        var spell := f.now - since.value;
        dwell := if spell < 0.0 then 0 else spell.Floor;
      }
    }

    method UpdateState(f: Frame) returns (change: Change)
      modifies this
      ensures (Value(), change) == Updated(old(Value()), f)
    {
      change := Stays;
      if f.persons > 0 {
        lastSeen := Some(f.now);
        if status.Empty? {
          if firstSeen.None? {
            firstSeen := Some(f.now);
          }
          if f.now - firstSeen.value >= f.rules.minOccupied || f.rules.minOccupied <= 0.0 {
            status, since, dwell, sessions := Occupied, Some(f.now), 0, sessions + 1;
            change := Fills;
          }
        } else {
          dwell := 0;
          CountDwell(f);
        }
      } else {
        if IsSet(lastSeen) && f.now - lastSeen.value > DROP_SEC {
          firstSeen := None;
        }
        if status.Occupied? {
          var idle := if IsSet(lastSeen) then f.now - lastSeen.value else 0.0;
          if idle >= f.rules.debounce {
            change := Clears(dwell);
            status, since, dwell := Empty, None, 0;
          } else {
            CountDwell(f);
          }
        }
      }
    }
  }
}
