/**
 * The shared model pool: acquirers of one (file, size) key share an entry with a reference count and
 * one model thread. Each step is one critical section of the pool lock or one action of an
 * acquiring thread between two of them, so a run is any interleaving of acquire, load, release and close.
 */
module ModelPool {
  import opened Seqs

  type Key = string

  /** StopDue: taken out for stopping under the lock; Stopped: told to stop. */
  datatype ModelThread = NotStarted | Running | StopDue | Stopped

  datatype Load = Loading | Ready | Failed

  datatype Entry = Entry(key: Key, refs: int, thread: ModelThread, load: Load)

  /**
   * Where an acquire call is. The creator of an entry goes Creating, then Started, or Failing,
   * Unmapped and Raised; any other caller goes Waiting, then Returned or Raised.
   */
  datatype Phase = Creating | Started | Failing | Unmapped | Waiting | Returned | Raised

  datatype Call = Call(entry: nat, phase: Phase)

  datatype Handle = Handle(entry: nat, released: bool)

  datatype State = State(
    mapped: map<Key, nat>, closed: bool, entries: seq<Entry>, calls: seq<Call>, handles: seq<Handle>)

  const NewPool := State(map[], false, [], [], [])

  datatype Step =
    | Acquire(key: Key)
    | LoadEnds(call: nat, ok: bool)   // the loader returned or raised; a good load starts the thread
    | Unmap(call: nat)                // the failed creator takes its entry out
    | Publish(call: nat)              // the creator marks the entry ready and returns or raises
    | Wake(call: nat)                 // a waiter sees the entry ready
    | Release(handle: nat)
    | Stop(entry: nat)                // the stop decided under the lock is carried out
    | Close

  // ---- specification -------------------------------------------------------------------------------

  function WithPhase(s: State, c: nat, phase: Phase): State
    requires c < |s.calls|
  {
    s.(calls := s.calls[c := s.calls[c].(phase := phase)])
  }

  function WithEntry(s: State, e: nat, entry: Entry): State
    requires e < |s.entries|
  {
    s.(entries := s.entries[e := entry])
  }

  predicate IsMapped(s: State, e: nat)
    requires e < |s.entries|
  {
    s.entries[e].key in s.mapped && s.mapped[s.entries[e].key] == e
  }

  function Without(s: State, e: nat): State
    requires e < |s.entries|
  {
    if IsMapped(s, e) then s.(mapped := s.mapped - {s.entries[e].key}) else s
  }

  /** Nothing on a closed pool; else joins the key's entry or creates it. */
  function Acquired(s: State, key: Key): State
    requires key in s.mapped ==> s.mapped[key] < |s.entries|
  {
    if s.closed then s
    else if key in s.mapped then
      var e := s.mapped[key];
      WithEntry(s, e, s.entries[e].(refs := s.entries[e].refs + 1)).(calls := s.calls + [Call(e, Waiting)])
    else
      var e := |s.entries|;
      s.(mapped := s.mapped[key := e], entries := s.entries + [Entry(key, 1, NotStarted, Loading)],
         calls := s.calls + [Call(e, Creating)])
  }

  function LoadEnded(s: State, c: nat, ok: bool): State
    requires c < |s.calls| && s.calls[c].entry < |s.entries|
  {
    var e := s.calls[c].entry;
    if ok && !s.closed
    then WithEntry(WithPhase(s, c, Started), e, s.entries[e].(thread := Running))
    else WithPhase(s, c, Failing)
  }

  function Returning(s: State, c: nat): State
    requires c < |s.calls|
  {
    WithPhase(s, c, Returned).(handles := s.handles + [Handle(s.calls[c].entry, false)])
  }

  function Published(s: State, c: nat): State
    requires c < |s.calls| && s.calls[c].entry < |s.entries|
  {
    var e := s.calls[c].entry;
    if s.calls[c].phase.Started? then WithEntry(Returning(s, c), e, s.entries[e].(load := Ready))
    else WithEntry(WithPhase(s, c, Raised), e, s.entries[e].(load := Failed))
  }

  /** A handle counts once; the entry that reaches zero leaves the pool and is to be stopped. */
  function Released(s: State, h: nat): State
    requires h < |s.handles| && s.handles[h].entry < |s.entries|
  {
    if s.handles[h].released then s
    else
      var e := s.handles[h].entry;
      var entry := s.entries[e].(refs := s.entries[e].refs - 1);
      var dropped := WithEntry(s, e, entry).(handles := s.handles[h := s.handles[h].(released := true)]);
      if entry.refs == 0 && IsMapped(dropped, e)
      then Without(WithEntry(dropped, e, entry.(thread := StopDue)), e)
      else dropped
  }

  /** Every running model is to be stopped; entries still loading have no thread yet. */
  function Closed(s: State): State {
    s.(closed := true, mapped := map[],
       entries := seq(|s.entries|, e requires 0 <= e < |s.entries| =>
         if IsMapped(s, e) && s.entries[e].thread.Running? then s.entries[e].(thread := StopDue) else s.entries[e]))
  }

  predicate Enabled(s: State, step: Step) {
    match step
    case Acquire(key) => key in s.mapped ==> s.mapped[key] < |s.entries|
    case LoadEnds(c, _) => c < |s.calls| && s.calls[c].entry < |s.entries| && s.calls[c].phase.Creating?
    case Unmap(c) => c < |s.calls| && s.calls[c].entry < |s.entries| && s.calls[c].phase.Failing?
    case Publish(c) =>
      c < |s.calls| && s.calls[c].entry < |s.entries| && (s.calls[c].phase.Started? || s.calls[c].phase.Unmapped?)
    case Wake(c) =>
      && c < |s.calls| && s.calls[c].entry < |s.entries|
      && s.calls[c].phase.Waiting? && !s.entries[s.calls[c].entry].load.Loading?
    case Release(h) => h < |s.handles| && s.handles[h].entry < |s.entries|
    case Stop(e) => e < |s.entries| && s.entries[e].thread.StopDue?
    case Close => true
  }

  /** A step that is not enabled changes nothing. */
  function Next(s: State, step: Step): State {
    if !Enabled(s, step) then s
    else
      match step
      case Acquire(key) => Acquired(s, key)
      case LoadEnds(c, ok) => LoadEnded(s, c, ok)
      case Unmap(c) => WithPhase(Without(s, s.calls[c].entry), c, Unmapped)
      case Publish(c) => Published(s, c)
      case Wake(c) => if s.entries[s.calls[c].entry].load.Ready? then Returning(s, c) else WithPhase(s, c, Raised)
      case Release(h) => Released(s, h)
      case Stop(e) => WithEntry(s, e, s.entries[e].(thread := Stopped))
      case Close => Closed(s)
  }

  function Run(steps: seq<Step>): State {
    if steps == [] then NewPool else Next(Run(steps[..|steps| - 1]), steps[|steps| - 1])
  }

  // ---- reference counts ----------------------------------------------------------------------------

  function HeldOn(e: nat): Handle -> bool {
    (h: Handle) => h.entry == e && !h.released
  }

  /** The call took a reference and did not turn it into a handle: it loads, waits or raised. */
  function CalledOn(e: nat): Call -> bool {
    (c: Call) => c.entry == e && !c.phase.Returned?
  }

  function Held(s: State, e: nat): nat { Count(HeldOn(e), s.handles) }

  function Callers(s: State, e: nat): nat { Count(CalledOn(e), s.calls) }

  ghost predicate RefsExact(s: State) {
    forall e: nat | e < |s.entries| :: s.entries[e].refs == Held(s, e) + Callers(s, e)
  }

  ghost predicate Linked(s: State) {
    && (forall c | 0 <= c < |s.calls| :: s.calls[c].entry < |s.entries|)
    && (forall h | 0 <= h < |s.handles| :: s.handles[h].entry < |s.entries|)
    && (forall key | key in s.mapped :: s.mapped[key] < |s.entries| && s.entries[s.mapped[key]].key == key)
  }

  /** How the phase of a call and the state of its entry fit. */
  ghost predicate CallOk(s: State, call: Call)
    requires call.entry < |s.entries|
  {
    var entry := s.entries[call.entry];
    match call.phase
    case Creating => entry.thread.NotStarted? && entry.load.Loading? && (s.closed || IsMapped(s, call.entry))
    case Started => !entry.thread.NotStarted? && entry.load.Loading? && (s.closed || IsMapped(s, call.entry))
    case Failing => entry.thread.NotStarted? && entry.load.Loading?
    case Unmapped => entry.thread.NotStarted? && entry.load.Loading? && !IsMapped(s, call.entry)
    case Waiting => entry.load.Failed? ==> !IsMapped(s, call.entry)
    case Returned => !entry.thread.NotStarted?
    case Raised => entry.load.Failed?
  }

  predicate Creator(phase: Phase) {
    phase.Creating? || phase.Started? || phase.Failing? || phase.Unmapped?
  }

  /** An entry has at most one call that is still creating it. */
  ghost predicate OneCreator(s: State) {
    forall a, b | 0 <= a < b < |s.calls| && s.calls[a].entry == s.calls[b].entry ::
      !(Creator(s.calls[a].phase) && Creator(s.calls[b].phase))
  }

  ghost predicate EntryOk(s: State, e: nat)
    requires e < |s.entries|
  {
    var entry := s.entries[e];
    && (entry.load.Failed? ==> !IsMapped(s, e) && entry.thread.NotStarted?)
    && (entry.load.Ready? ==> !entry.thread.NotStarted?)
    && (entry.thread.Running? ==> IsMapped(s, e))
    && (entry.thread.StopDue? || entry.thread.Stopped? ==> !IsMapped(s, e) && (s.closed || entry.refs == 0))
  }

  /** Everything but the counts. */
  ghost predicate Shape(s: State) {
    && Linked(s) && OneCreator(s)
    && (forall c | 0 <= c < |s.calls| :: CallOk(s, s.calls[c]))
    && (forall e: nat | e < |s.entries| :: EntryOk(s, e))
    && (forall h | 0 <= h < |s.handles| :: !s.entries[s.handles[h].entry].thread.NotStarted?)
    && (s.closed ==> s.mapped == map[])
  }

  ghost predicate MappedReferred(s: State) {
    forall e: nat | e < |s.entries| && IsMapped(s, e) :: s.entries[e].refs > 0
  }

  ghost predicate Inv(s: State) {
    Shape(s) && RefsExact(s) && MappedReferred(s)
  }

  // ---- counts under the updates --------------------------------------------------------------------

  lemma PhaseCounts(s: State, c: nat, phase: Phase, e: nat)
    requires c < |s.calls|
    ensures Callers(WithPhase(s, c, phase), e) == Callers(s, e)
      - (if CalledOn(e)(s.calls[c]) then 1 else 0) + (if s.calls[c].entry == e && !phase.Returned? then 1 else 0)
  {
    CountUpdate(CalledOn(e), s.calls, c, s.calls[c].(phase := phase));
  }

  lemma KeepsCounts(s: State, c: nat, phase: Phase)
    requires c < |s.calls| && !s.calls[c].phase.Returned? && !phase.Returned?
    ensures forall e: nat :: Callers(WithPhase(s, c, phase), e) == Callers(s, e)
  {
    forall e: nat
      ensures Callers(WithPhase(s, c, phase), e) == Callers(s, e)
    {
      PhaseCounts(s, c, phase, e);
    }
  }

  lemma ReturningCounts(s: State, c: nat)
    requires c < |s.calls| && !s.calls[c].phase.Returned?
    ensures var s' := Returning(s, c); forall e: nat :: Held(s', e) + Callers(s', e) == Held(s, e) + Callers(s, e)
  {
    var s' := Returning(s, c);
    forall e: nat
      ensures Held(s', e) + Callers(s', e) == Held(s, e) + Callers(s, e)
    {
      PhaseCounts(s, c, Returned, e);
      CountAppend(HeldOn(e), s.handles, Handle(s.calls[c].entry, false));
    }
  }

  lemma {:induction false} NoneCalls(calls: seq<Call>, e: nat)
    requires forall c | 0 <= c < |calls| :: calls[c].entry != e
    ensures Count(CalledOn(e), calls) == 0
  {
    if calls != [] {
      NoneCalls(calls[..|calls| - 1], e);
    }
  }

  lemma {:induction false} NoneHolds(handles: seq<Handle>, e: nat)
    requires forall h | 0 <= h < |handles| :: handles[h].entry != e
    ensures Count(HeldOn(e), handles) == 0
  {
    if handles != [] {
      NoneHolds(handles[..|handles| - 1], e);
    }
  }

  lemma AcquiredCounts(s: State, key: Key)
    requires Linked(s) && RefsExact(s)
    ensures RefsExact(Acquired(s, key))
  {
    var s' := Acquired(s, key);
    forall e: nat | e < |s'.entries|
      ensures s'.entries[e].refs == Held(s', e) + Callers(s', e)
    {
      if !s.closed {
        var call := s'.calls[|s.calls|];
        assert s'.calls == s.calls + [call];
        CountAppend(CalledOn(e), s.calls, call);
        if e == |s.entries| {
          NoneCalls(s.calls, e);
          NoneHolds(s.handles, e);
        }
      }
    }
  }

  lemma ReleasedCounts(s: State, h: nat)
    requires Linked(s) && RefsExact(s) && h < |s.handles|
    ensures RefsExact(Released(s, h))
  {
    if !s.handles[h].released {
      var s' := Released(s, h);
      assert s'.calls == s.calls;
      forall e: nat | e < |s'.entries|
        ensures s'.entries[e].refs == Held(s', e) + Callers(s', e)
      {
        CountUpdate(HeldOn(e), s.handles, h, s.handles[h].(released := true));
      }
    }
  }

  lemma LoadEndedCounts(s: State, c: nat, ok: bool)
    requires RefsExact(s) && Enabled(s, LoadEnds(c, ok))
    ensures RefsExact(LoadEnded(s, c, ok))
  {
    KeepsCounts(s, c, if ok && !s.closed then Started else Failing);
  }

  lemma UnmapCounts(s: State, c: nat)
    requires RefsExact(s) && Enabled(s, Unmap(c))
    ensures RefsExact(Next(s, Unmap(c)))
  {
    KeepsCounts(Without(s, s.calls[c].entry), c, Unmapped);
  }

  lemma PublishedCounts(s: State, c: nat)
    requires RefsExact(s) && Enabled(s, Publish(c))
    ensures RefsExact(Published(s, c))
  {
    if s.calls[c].phase.Started? {
      ReturningCounts(s, c);
    } else {
      KeepsCounts(s, c, Raised);
    }
  }

  lemma WakeCounts(s: State, c: nat)
    requires RefsExact(s) && Enabled(s, Wake(c))
    ensures RefsExact(Next(s, Wake(c)))
  {
    ReturningCounts(s, c);
    KeepsCounts(s, c, Raised);
  }

  /** Every step keeps each entry's reference count equal to its unreleased handles and open or failed acquires. */
  lemma NextKeepsCounts(s: State, step: Step)
    requires Linked(s) && RefsExact(s)
    ensures RefsExact(Next(s, step))
  {
    if Enabled(s, step) {
      match step
      case Acquire(key) => AcquiredCounts(s, key); hide RefsExact;
      case LoadEnds(c, ok) => LoadEndedCounts(s, c, ok); hide RefsExact;
      case Unmap(c) => UnmapCounts(s, c); hide RefsExact;
      case Publish(c) => PublishedCounts(s, c); hide RefsExact;
      case Wake(c) => WakeCounts(s, c); hide RefsExact;
      case Release(h) => ReleasedCounts(s, h); hide RefsExact;
      case Stop(e) =>
      case Close =>
    }
  }

  // ---- shape under the steps -----------------------------------------------------------------------

  lemma AcquiredKeepsShape(s: State, key: Key)
    requires Shape(s)
    ensures Shape(Acquired(s, key))
  {
    var s' := Acquired(s, key);
    assert key in s.mapped ==> EntryOk(s, s.mapped[key]);
    forall e: nat | e < |s'.entries|
      ensures EntryOk(s', e)
    {
      if e < |s.entries| {
        assert EntryOk(s, e);
      }
    }
    forall c | 0 <= c < |s'.calls|
      ensures CallOk(s', s'.calls[c])
    {
      if c < |s.calls| {
        assert CallOk(s, s.calls[c]);
        assert EntryOk(s, s.calls[c].entry);
      }
    }
  }

  lemma LoadEndedKeepsShape(s: State, c: nat, ok: bool)
    requires Shape(s) && Enabled(s, LoadEnds(c, ok))
    ensures Shape(LoadEnded(s, c, ok))
  {
    var s' := LoadEnded(s, c, ok);
    forall e: nat | e < |s'.entries|
      ensures EntryOk(s', e)
    {
      if e < |s.entries| {
        assert EntryOk(s, e);
      }
    }
    forall c | 0 <= c < |s'.calls|
      ensures CallOk(s', s'.calls[c])
    {
      if c < |s.calls| {
        assert CallOk(s, s.calls[c]);
        assert EntryOk(s, s.calls[c].entry);
      }
    }
  }

  lemma UnmapKeepsShape(s: State, c: nat)
    requires Shape(s) && Enabled(s, Unmap(c))
    ensures Shape(Next(s, Unmap(c)))
  {
    var s' := Next(s, Unmap(c));
    forall e: nat | e < |s'.entries|
      ensures EntryOk(s', e)
    {
      if e < |s.entries| {
        assert EntryOk(s, e);
      }
    }
    forall c | 0 <= c < |s'.calls|
      ensures CallOk(s', s'.calls[c])
    {
      if c < |s.calls| {
        assert CallOk(s, s.calls[c]);
        assert EntryOk(s, s.calls[c].entry);
      }
    }
  }

  lemma PublishedEntries(s: State, c: nat)
    requires Shape(s) && Enabled(s, Publish(c))
    ensures Linked(Published(s, c))
    ensures forall e: nat | e < |Published(s, c).entries| :: EntryOk(Published(s, c), e)
  {
    var s' := Published(s, c);
    assert CallOk(s, s.calls[c]);
    forall e: nat | e < |s'.entries|
      ensures EntryOk(s', e)
    {
      assert EntryOk(s, e);
    }
  }

  lemma PublishedCalls(s: State, c: nat)
    requires Shape(s) && Enabled(s, Publish(c))
    ensures Linked(Published(s, c))
    ensures forall b | 0 <= b < |Published(s, c).calls| :: CallOk(Published(s, c), Published(s, c).calls[b])
  {
    var s' := Published(s, c);
    forall b | 0 <= b < |s'.calls|
      ensures CallOk(s', s'.calls[b])
    {
      assert CallOk(s, s.calls[b]);
      assert EntryOk(s, s.calls[b].entry);
    }
  }

  lemma PublishedRest(s: State, c: nat)
    requires Shape(s) && Enabled(s, Publish(c))
    ensures var s' := Published(s, c);
      && Linked(s') && OneCreator(s')
      && (forall h | 0 <= h < |s'.handles| :: !s'.entries[s'.handles[h].entry].thread.NotStarted?)
      && (s'.closed ==> s'.mapped == map[])
  {
    assert CallOk(s, s.calls[c]);
    hide EntryOk;
  }

  lemma PublishedKeepsShape(s: State, c: nat)
    requires Shape(s) && Enabled(s, Publish(c))
    ensures Shape(Published(s, c))
  {
    PublishedEntries(s, c);
    PublishedCalls(s, c);
    PublishedRest(s, c);
    hide Published;
    hide EntryOk;
    hide CallOk;
    hide OneCreator;
  }

  lemma WakeKeepsShape(s: State, c: nat)
    requires Shape(s) && Enabled(s, Wake(c))
    ensures Shape(Next(s, Wake(c)))
  {
    var s' := Next(s, Wake(c));
    assert EntryOk(s, s.calls[c].entry);
    forall e: nat | e < |s'.entries|
      ensures EntryOk(s', e)
    {
      if e < |s.entries| {
        assert EntryOk(s, e);
      }
    }
    forall c | 0 <= c < |s'.calls|
      ensures CallOk(s', s'.calls[c])
    {
      if c < |s.calls| {
        assert CallOk(s, s.calls[c]);
        assert EntryOk(s, s.calls[c].entry);
      }
    }
  }

  lemma OpenCallRefers(s: State, c: nat)
    requires Linked(s) && RefsExact(s) && c < |s.calls| && !s.calls[c].phase.Returned?
    ensures s.entries[s.calls[c].entry].refs > 0
  {
    CountAt(CalledOn(s.calls[c].entry), s.calls, c);
  }

  lemma HandleRefers(s: State, h: nat)
    requires Linked(s) && RefsExact(s) && h < |s.handles| && !s.handles[h].released
    ensures s.entries[s.handles[h].entry].refs > 0
  {
    CountAt(HeldOn(s.handles[h].entry), s.handles, h);
  }

  /** No open or failed call is left without a reference. */
  ghost predicate OpenCallsRefer(s: State)
    requires Linked(s)
  {
    forall c | 0 <= c < |s.calls| && !s.calls[c].phase.Returned? :: s.entries[s.calls[c].entry].refs > 0
  }

  lemma CountsCoverCalls(s: State)
    requires Linked(s) && RefsExact(s)
    ensures OpenCallsRefer(s)
  {
    forall c | 0 <= c < |s.calls| && !s.calls[c].phase.Returned?
      ensures s.entries[s.calls[c].entry].refs > 0
    {
      OpenCallRefers(s, c);
    }
  }

  lemma ReleasedIsCovered(s: State, h: nat)
    requires Inv(s) && Enabled(s, Release(h)) && !s.handles[h].released
    ensures s.entries[s.handles[h].entry].refs > 0
    ensures Linked(Released(s, h)) && OpenCallsRefer(Released(s, h))
  {
    HandleRefers(s, h);
    ReleasedCounts(s, h);
    hide RefsExact;
    CountsCoverCalls(Released(s, h));
  }

  lemma ReleasedKeepsShape(s: State, h: nat)
    requires Inv(s) && Enabled(s, Release(h))
    ensures Shape(Released(s, h))
  {
    if !s.handles[h].released {
      ReleasedIsCovered(s, h);
      hide RefsExact;
      hide MappedReferred;
      hide Released;
      ReleaseOne(s, h);
      hide Shape;
    }
  }

  lemma ReleaseOne(s: State, h: nat)
    requires Shape(s) && Enabled(s, Release(h)) && !s.handles[h].released
    requires s.entries[s.handles[h].entry].refs > 0
    requires Linked(Released(s, h)) && OpenCallsRefer(Released(s, h))
    ensures Shape(Released(s, h))
  {
    var s' := Released(s, h);
    forall e: nat | e < |s'.entries|
      ensures EntryOk(s', e)
    {
      assert EntryOk(s, e);
    }
    forall c | 0 <= c < |s'.calls|
      ensures CallOk(s', s'.calls[c])
    {
      assert CallOk(s, s.calls[c]);
    }
  }

  lemma StopKeepsShape(s: State, e: nat)
    requires Shape(s) && Enabled(s, Stop(e))
    ensures Shape(Next(s, Stop(e)))
  {
    var s' := Next(s, Stop(e));
    forall e: nat | e < |s'.entries|
      ensures EntryOk(s', e)
    {
      if e < |s.entries| {
        assert EntryOk(s, e);
      }
    }
    forall c | 0 <= c < |s'.calls|
      ensures CallOk(s', s'.calls[c])
    {
      if c < |s.calls| {
        assert CallOk(s, s.calls[c]);
        assert EntryOk(s, s.calls[c].entry);
      }
    }
  }

  lemma ClosedKeepsShape(s: State)
    requires Shape(s)
    ensures Shape(Closed(s))
  {
    var s' := Closed(s);
    forall e: nat | e < |s'.entries|
      ensures EntryOk(s', e)
    {
      if e < |s.entries| {
        assert EntryOk(s, e);
      }
    }
    forall c | 0 <= c < |s'.calls|
      ensures CallOk(s', s'.calls[c])
    {
      if c < |s.calls| {
        assert CallOk(s, s.calls[c]);
        assert EntryOk(s, s.calls[c].entry);
      }
    }
  }

  lemma NextKeepsShape(s: State, step: Step)
    requires Inv(s)
    ensures Shape(Next(s, step))
  {
    if Enabled(s, step) {
      match step
      case Acquire(key) => AcquiredKeepsShape(s, key); hide Shape;
      case LoadEnds(c, ok) => LoadEndedKeepsShape(s, c, ok); hide Shape;
      case Unmap(c) => UnmapKeepsShape(s, c); hide Shape;
      case Publish(c) => PublishedKeepsShape(s, c); hide Shape;
      case Wake(c) => WakeKeepsShape(s, c); hide Shape;
      case Release(h) => ReleasedKeepsShape(s, h); hide Shape;
      case Stop(e) => StopKeepsShape(s, e); hide Shape;
      case Close => ClosedKeepsShape(s); hide Shape;
    }
  }

  lemma NextKeepsReferred(s: State, step: Step)
    requires Inv(s)
    ensures MappedReferred(Next(s, step))
  {
    var s' := Next(s, step);
    hide Shape;
    hide RefsExact;
    forall e: nat | e < |s'.entries| && IsMapped(s', e)
      ensures s'.entries[e].refs > 0
    {
      assert e < |s.entries| && IsMapped(s, e) ==> s.entries[e].refs > 0;
    }
  }

  lemma NextKeepsInv(s: State, step: Step)
    requires Inv(s)
    ensures Inv(Next(s, step))
  {
    NextKeepsShape(s, step);
    NextKeepsCounts(s, step);
    NextKeepsReferred(s, step);
    hide Next;
    hide Shape;
    hide RefsExact;
  }

  lemma {:induction false} RunKeepsInv(steps: seq<Step>)
    ensures Inv(Run(steps))
  {
    if steps != [] {
      RunKeepsInv(steps[..|steps| - 1]);
      NextKeepsInv(Run(steps[..|steps| - 1]), steps[|steps| - 1]);
      hide Inv;
      hide Next;
    }
  }

  // ---- what every run promises ---------------------------------------------------------------------

  /** Over every interleaving a mapped entry's count is its unreleased handles plus its open acquires, and is positive. */
  lemma CountsAreExact(steps: seq<Step>, key: Key)
    requires key in Run(steps).mapped
    ensures var s := Run(steps); var e := s.mapped[key];
            && e < |s.entries| && s.entries[e].key == key
            && s.entries[e].refs == Held(s, e) + Count(OpenOn(e), s.calls) && s.entries[e].refs > 0
  {
    RunKeepsInv(steps);
    var s := Run(steps);
    hide Run;
    var e := s.mapped[key];
    forall c | 0 <= c < |s.calls|
      ensures s.calls[c].entry == e ==> !s.calls[c].phase.Raised?
    {
      assert CallOk(s, s.calls[c]);
      assert EntryOk(s, e);
    }
    NoRaisedCalls(s.calls, e);
  }

  /** The call is still creating the entry or waiting for it. */
  function OpenOn(e: nat): Call -> bool {
    (c: Call) => c.entry == e && !c.phase.Returned? && !c.phase.Raised?
  }

  lemma {:induction false} NoRaisedCalls(calls: seq<Call>, e: nat)
    requires forall c | 0 <= c < |calls| && calls[c].entry == e :: !calls[c].phase.Raised?
    ensures Count(CalledOn(e), calls) == Count(OpenOn(e), calls)
  {
    if calls != [] {
      NoRaisedCalls(calls[..|calls| - 1], e);
    }
  }

  /** An unreleased handle of an open pool has a running model, which is the one its key maps to. */
  lemma HandlesStayUsable(steps: seq<Step>, h: nat)
    requires var s := Run(steps); h < |s.handles| && !s.handles[h].released && !s.closed
    ensures var s := Run(steps); var e := s.handles[h].entry;
            e < |s.entries| && s.entries[e].thread.Running? && IsMapped(s, e)
  {
    RunKeepsInv(steps);
    var s := Run(steps);
    hide Run;
    HandleRefers(s, h);
    assert EntryOk(s, s.handles[h].entry);
  }

  /** A model thread is told to stop only when nothing refers to its entry or the pool is closed, and runs only mapped. */
  lemma StopsAreJustified(steps: seq<Step>, e: nat)
    requires e < |Run(steps).entries|
    ensures var s := Run(steps); var thread := s.entries[e].thread;
            && (thread.StopDue? || thread.Stopped? ==> s.closed || (Held(s, e) == 0 && Callers(s, e) == 0))
            && (thread.Running? ==> IsMapped(s, e) && !s.closed)
  {
    RunKeepsInv(steps);
    var s := Run(steps);
    hide Run;
    assert EntryOk(s, e);
  }

  /** Once the pool is closed no model thread starts, whatever happens next. */
  lemma NoStartAfterClose(steps: seq<Step>, step: Step, e: nat)
    requires Run(steps).closed && e < |Run(steps).entries| && Run(steps).entries[e].thread.NotStarted?
    ensures var s' := Next(Run(steps), step);
            s'.closed && e < |s'.entries| && s'.entries[e].thread.NotStarted?
  {
    RunKeepsInv(steps);
    var s := Run(steps);
    hide Run;
    match step
    case Release(h) =>
      if Enabled(s, step) {
        assert !s.entries[s.handles[h].entry].thread.NotStarted?;
      }
    case _ =>
  }

  /** With every handle released and no acquire open, no model stays loaded. */
  lemma NothingStaysLoaded(steps: seq<Step>)
    requires var s := Run(steps);
      && (forall h | 0 <= h < |s.handles| :: s.handles[h].released)
      && (forall c | 0 <= c < |s.calls| :: s.calls[c].phase.Returned? || s.calls[c].phase.Raised?)
    ensures var s := Run(steps);
      s.mapped == map[] && forall e | 0 <= e < |s.entries| :: !s.entries[e].thread.Running?
  {
    RunKeepsInv(steps);
    var s := Run(steps);
    forall key | key in s.mapped
      ensures false
    {
      CountsAreExact(steps, key);
      hide Run;
      var e := s.mapped[key];
      if Held(s, e) > 0 {
        var h := CountSome(HeldOn(e), s.handles);
      } else {
        var c := CountSome(OpenOn(e), s.calls);
      }
    }
    hide Run;
    forall e: nat | e < |s.entries|
      ensures !s.entries[e].thread.Running?
    {
      assert EntryOk(s, e);
    }
  }

  /** The release of handle `h`, field by field. */
  lemma ReleaseSteps(s: State, h: nat)
    requires Inv(s) && h < |s.handles|
    ensures var e := s.handles[h].entry;
            && e < |s.entries|
            && (!s.handles[h].released && IsMapped(s, e) ==> !s.entries[e].thread.StopDue?)
            && var entry := s.entries[e].(refs := s.entries[e].refs - 1);
               var last := entry.refs == 0 && IsMapped(s, e);
               Next(s, Release(h)) ==
                 if s.handles[h].released then s
                 else s.(handles := s.handles[h := s.handles[h].(released := true)],
                         entries := s.entries[e := if last then entry.(thread := StopDue) else entry],
                         mapped := if last then s.mapped - {entry.key} else s.mapped)
  {
    var e := s.handles[h].entry;
    assert EntryOk(s, e);
    hide RefsExact;
  }

  // ---- the code ------------------------------------------------------------------------------------

  /** The pool's fields; `entries`, `calls` and `handles` are the objects its threads hold, by number. */
  class Pool {
    var mapped: map<Key, nat>
    var closed: bool
    var entries: seq<Entry>
    var calls: seq<Call>
    var handles: seq<Handle>

    ghost function Value(): State
      reads this
    {
      State(mapped, closed, entries, calls, handles)
    }

    constructor ()
      ensures Value() == NewPool && Inv(Value())
    {
      mapped, closed, entries, calls, handles := map[], false, [], [], [];
    }

    /** The locked part of acquire(); the new call's phase says whether the caller creates or waits. */
    method BeginAcquire(key: Key) returns (raised: bool)
      requires Inv(Value())
      modifies this
      ensures Inv(Value()) && Value() == Next(old(Value()), Acquire(key)) && raised == old(closed)
    {
      NextKeepsInv(Value(), Acquire(key));
      ghost var next := Next(Value(), Acquire(key));
      assert key in mapped ==> mapped[key] < |entries|;
      hide Inv;
      if closed {
        return true;
      }
      if key !in mapped {
        mapped := mapped[key := |entries|];
        entries := entries + [Entry(key, 0, NotStarted, Loading)];
        calls := calls + [Call(|entries| - 1, Creating)];
      } else {
        calls := calls + [Call(mapped[key], Waiting)];
      }
      var e := mapped[key];
      entries := entries[e := entries[e].(refs := entries[e].refs + 1)];
      raised := false;
      assert entries == next.entries && calls == next.calls && mapped == next.mapped;
    }

    /** _load() after the loader returned (`ok`) or raised. */
    method EndLoad(c: nat, ok: bool)
      requires Inv(Value()) && Enabled(Value(), LoadEnds(c, ok))
      modifies this
      ensures Inv(Value()) && Value() == Next(old(Value()), LoadEnds(c, ok))
    {
      NextKeepsInv(Value(), LoadEnds(c, ok));
      hide Inv;
      if !ok || closed {
        calls := calls[c := calls[c].(phase := Failing)];
        return;
      }
      var e := calls[c].entry;
      entries := entries[e := entries[e].(thread := Running)];
      calls := calls[c := calls[c].(phase := Started)];
    }

    method TakeOutFailed(c: nat)
      requires Inv(Value()) && Enabled(Value(), Unmap(c))
      modifies this
      ensures Inv(Value()) && Value() == Next(old(Value()), Unmap(c))
    {
      NextKeepsInv(Value(), Unmap(c));
      hide Inv;
      var e := calls[c].entry;
      if entries[e].key in mapped && mapped[entries[e].key] == e {
        mapped := mapped - {entries[e].key};
      }
      calls := calls[c := calls[c].(phase := Unmapped)];
    }

    /** Sets the entry's ready event; the creator's acquire() returns a handle or raises. */
    method PublishLoad(c: nat)
      requires Inv(Value()) && Enabled(Value(), Publish(c))
      modifies this
      ensures Inv(Value()) && Value() == Next(old(Value()), Publish(c))
    {
      NextKeepsInv(Value(), Publish(c));
      hide Inv;
      var e := calls[c].entry;
      if calls[c].phase.Started? {
        entries := entries[e := entries[e].(load := Ready)];
        calls, handles := calls[c := calls[c].(phase := Returned)], handles + [Handle(e, false)];
      } else {
        entries := entries[e := entries[e].(load := Failed)];
        calls := calls[c := calls[c].(phase := Raised)];
      }
    }

    /** A waiter woken by the ready event returns a handle or raises the load error. */
    method EndWait(c: nat)
      requires Inv(Value()) && Enabled(Value(), Wake(c))
      modifies this
      ensures Inv(Value()) && Value() == Next(old(Value()), Wake(c))
    {
      NextKeepsInv(Value(), Wake(c));
      hide Inv;
      var e := calls[c].entry;
      if entries[e].load.Failed? {
        calls := calls[c := calls[c].(phase := Raised)];
      } else {
        calls, handles := calls[c := calls[c].(phase := Returned)], handles + [Handle(e, false)];
      }
    }

    /** Returns the entry to stop, if this was its last reference. */
    method ReleaseHandle(h: nat) returns (stop: bool)
      requires Inv(Value()) && h < |handles|
      modifies this
      ensures Inv(Value()) && Value() == Next(old(Value()), Release(h))
      ensures var e := old(handles)[h].entry;
              e < |old(entries)| && e < |entries| &&
              (stop <==> entries[e].thread.StopDue? && !old(entries)[e].thread.StopDue?)
    {
      hide Inv;
      hide Next;
      NextKeepsInv(Value(), Release(h));
      ReleaseSteps(Value(), h);
      ghost var next := Next(Value(), Release(h));
      stop := false;
      if handles[h].released {
        return;
      }
      handles := handles[h := handles[h].(released := true)];
      var e := handles[h].entry;
      entries := entries[e := entries[e].(refs := entries[e].refs - 1)];
      assert entries[e].refs == old(entries)[e].refs - 1;
      if entries[e].refs == 0 && entries[e].key in mapped && mapped[entries[e].key] == e {
        mapped := mapped - {entries[e].key};
        entries := entries[e := entries[e].(thread := StopDue)];
        stop := true;
      }
      assert entries == next.entries && handles == next.handles && mapped == next.mapped;
    }

    method StopThread(e: nat)
      requires Inv(Value()) && Enabled(Value(), Stop(e))
      modifies this
      ensures Inv(Value()) && Value() == Next(old(Value()), Stop(e))
    {
      NextKeepsInv(Value(), Stop(e));
      hide Inv;
      entries := entries[e := entries[e].(thread := Stopped)];
    }

    method ClosePool()
      requires Inv(Value())
      modifies this
      ensures Inv(Value()) && Value() == Next(old(Value()), Close)
    {
      NextKeepsInv(Value(), Close);
      ghost var next := Next(Value(), Close);
      hide Inv;
      closed := true;
      for e := 0 to |entries|
        invariant |entries| == |old(entries)| && closed
        invariant mapped == old(mapped) && calls == old(calls) && handles == old(handles)
        invariant forall i | 0 <= i < |entries| ::
          entries[i] == if i < e then Closed(old(Value())).entries[i] else old(entries)[i]
      {
        if entries[e].key in mapped && mapped[entries[e].key] == e && entries[e].thread.Running? {
          entries := entries[e := entries[e].(thread := StopDue)];
        }
      }
      mapped := map[];
      assert entries == next.entries;
    }
  }
}
