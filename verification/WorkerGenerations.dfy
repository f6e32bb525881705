/**
 * What becomes of every settings generation and of the newest stream generation in the camera worker's
 * protocol: none is forgotten and none is settled twice, over every interleaving.
 */
module WorkerGenerations {
  import opened Options
  import opened Seqs
  import opened WorkerProtocol

  /** A settings generation or a stream generation. */
  datatype Mark = Asked(gen: nat) | Sourced(gen: nat)

  function HelperMark(helper: Helper): Option<Mark> {
    match helper
    case Load(change, _) => Some(Asked(change.gen))
    case StreamUp(gen, _) => Some(Sourced(gen))
    case Ended => None
  }

  function ItemMark(item: Item): Option<Mark> {
    match item
    case Settings(change) => Some(Asked(change.gen))
    case Stream(gen, _) => Some(Sourced(gen))
    case Identity => None
  }

  function WorkerMark(worker: Worker): Option<Mark> {
    match worker
    case Checked(change) => Some(Asked(change.gen))
    case Building(change, _) => Some(Asked(change.gen))
    case StartingStream(gen) => Some(Sourced(gen))
    case _ => None
  }

  function CallerMark(caller: Caller): Option<Mark> {
    match caller
    case LoadDue(change) => Some(Asked(change.gen))
    case StreamDue(gen, _) => Some(Sourced(gen))
    case _ => None
  }

  function HelperMarked(m: Mark): Helper -> bool {
    (h: Helper) => HelperMark(h) == Some(m)
  }

  function ItemMarked(m: Mark): Item -> bool {
    (i: Item) => ItemMark(i) == Some(m)
  }

  function OfGen(g: nat): Retired -> bool {
    (r: Retired) => r.gen == g
  }

  /** In how many places the generation is still in flight. */
  function InFlight(s: State, m: Mark): nat {
    Count(HelperMarked(m), s.helpers) + Count(ItemMarked(m), s.queue) + Count(ItemMarked(m), s.local)
    + One(WorkerMark(s.worker) == Some(m)) + One(CallerMark(s.caller) == Some(m))
  }

  function TimesRetired(s: State, g: nat): nat {
    Count(OfGen(g), s.gens.retired)
  }

  /** Each settings generation taken is in flight in one place, or met its fate once. */
  ghost predicate OneFateEach(s: State) {
    forall g: nat :: InFlight(s, Asked(g)) + TimesRetired(s, g) == One(1 <= g <= s.gens.settings)
  }

  function InstalledGen(s: State): Option<nat> {
    if s.setup.stream.Some? then Some(s.setup.stream.value.gen) else None
  }

  /** Once a stream is wanted, the newest stream generation is on its way or in use. */
  predicate StreamComes(s: State) {
    s.setup.streamWanted && !s.stopping ==>
      InFlight(s, Sourced(s.gens.stream)) + One(InstalledGen(s) == Some(s.gens.stream)) >= 1
  }

  // ---- counting over one update ----------------------------------------------------------------------

  lemma SetHelperCounts(helpers: seq<Helper>, h: nat, helper: Helper)
    requires h < |helpers|
    ensures forall m: Mark ::
      Count(HelperMarked(m), helpers[h := helper]) ==
      Count(HelperMarked(m), helpers) - One(HelperMark(helpers[h]) == Some(m)) + One(HelperMark(helper) == Some(m))
  {
    forall m: Mark
      ensures Count(HelperMarked(m), helpers[h := helper]) ==
        Count(HelperMarked(m), helpers) - One(HelperMark(helpers[h]) == Some(m)) + One(HelperMark(helper) == Some(m))
    {
      CountUpdate(HelperMarked(m), helpers, h, helper);
    }
  }

  lemma AddHelperCounts(helpers: seq<Helper>, helper: Helper)
    ensures forall m: Mark ::
      Count(HelperMarked(m), helpers + [helper]) == Count(HelperMarked(m), helpers) + One(HelperMark(helper) == Some(m))
  {
    forall m: Mark
      ensures Count(HelperMarked(m), helpers + [helper]) ==
        Count(HelperMarked(m), helpers) + One(HelperMark(helper) == Some(m))
    {
      CountAppend(HelperMarked(m), helpers, helper);
    }
  }

  lemma AddItemCounts(items: seq<Item>, item: Item)
    ensures forall m: Mark ::
      Count(ItemMarked(m), items + [item]) == Count(ItemMarked(m), items) + One(ItemMark(item) == Some(m))
  {
    forall m: Mark
      ensures Count(ItemMarked(m), items + [item]) == Count(ItemMarked(m), items) + One(ItemMark(item) == Some(m))
    {
      CountAppend(ItemMarked(m), items, item);
    }
  }

  lemma DropHeadCounts(items: seq<Item>)
    requires items != []
    ensures forall m: Mark ::
      Count(ItemMarked(m), items[1..]) == Count(ItemMarked(m), items) - One(ItemMark(items[0]) == Some(m))
  {
    forall m: Mark
      ensures Count(ItemMarked(m), items[1..]) == Count(ItemMarked(m), items) - One(ItemMark(items[0]) == Some(m))
    {
      CountHead(ItemMarked(m), items);
    }
  }

  lemma RetireCounts(retired: seq<Retired>, gen: nat, fate: Fate)
    ensures forall g: nat ::
      Count(OfGen(g), retired + [Retired(gen, fate)]) == Count(OfGen(g), retired) + One(g == gen)
  {
    forall g: nat
      ensures Count(OfGen(g), retired + [Retired(gen, fate)]) == Count(OfGen(g), retired) + One(g == gen)
    {
      CountAppend(OfGen(g), retired, Retired(gen, fate));
    }
  }

  // ---- how the primitive updates move generations ------------------------------------------------------

  /** Where a generation stands: in flight, and how often retired. Streams are never retired. */
  function Traces(s: State, m: Mark): nat {
    InFlight(s, m) + if m.Asked? then TimesRetired(s, m.gen) else 0
  }

  predicate SameMarks(s: State, t: State) {
    && t.helpers == s.helpers && t.queue == s.queue && t.local == s.local && t.gens.retired == s.gens.retired
    && WorkerMark(t.worker) == WorkerMark(s.worker) && CallerMark(t.caller) == CallerMark(s.caller)
  }

  lemma NothingTraced(s: State, t: State)
    requires SameMarks(s, t)
    ensures forall m: Mark :: Traces(t, m) == Traces(s, m)
  {
  }

  lemma SetHelperTraces(s: State, t: State, h: nat, helper: Helper)
    requires h < |s.helpers| && t.helpers == s.helpers[h := helper] && SameMarks(s, t.(helpers := s.helpers))
    ensures forall m: Mark ::
      Traces(t, m) == Traces(s, m) - One(HelperMark(s.helpers[h]) == Some(m)) + One(HelperMark(helper) == Some(m))
  {
    SetHelperCounts(s.helpers, h, helper);
  }

  lemma AddHelperTraces(s: State, t: State, helper: Helper)
    requires t.helpers == s.helpers + [helper] && SameMarks(s, t.(helpers := s.helpers))
    ensures forall m: Mark :: Traces(t, m) == Traces(s, m) + One(HelperMark(helper) == Some(m))
  {
    AddHelperCounts(s.helpers, helper);
  }

  lemma EnqueueTraces(s: State, t: State, item: Item)
    requires t.queue == s.queue + [item] && SameMarks(s, t.(queue := s.queue))
    ensures forall m: Mark :: Traces(t, m) == Traces(s, m) + One(ItemMark(item) == Some(m))
  {
    AddItemCounts(s.queue, item);
  }

  lemma DropHeadTraces(s: State, t: State)
    requires s.local != [] && t.local == s.local[1..] && SameMarks(s, t.(local := s.local))
    ensures forall m: Mark :: Traces(t, m) == Traces(s, m) - One(ItemMark(s.local[0]) == Some(m))
  {
    DropHeadCounts(s.local);
  }

  lemma RetireTraces(s: State, t: State, gen: nat, fate: Fate)
    requires t.gens.retired == s.gens.retired + [Retired(gen, fate)]
    requires SameMarks(s, t.(gens := t.gens.(retired := s.gens.retired)))
    ensures forall m: Mark :: Traces(t, m) == Traces(s, m) + One(m == Asked(gen))
  {
    RetireCounts(s.gens.retired, gen, fate);
  }

  /** Worker and caller hand on what they hold. */
  lemma HandTraces(s: State, t: State)
    requires t.helpers == s.helpers && t.queue == s.queue && t.local == s.local && t.gens.retired == s.gens.retired
    ensures forall m: Mark ::
      Traces(t, m) == Traces(s, m)
      - One(WorkerMark(s.worker) == Some(m)) + One(WorkerMark(t.worker) == Some(m))
      - One(CallerMark(s.caller) == Some(m)) + One(CallerMark(t.caller) == Some(m))
  {
  }

  // ---- what each step does to the traces ---------------------------------------------------------------

  /** No settings generation appears, disappears or doubles, except a new one taken by this step. */
  ghost predicate Accounts(s: State, t: State) {
    && s.gens.settings <= t.gens.settings <= s.gens.settings + 1
    && (forall g: nat :: Traces(t, Asked(g)) ==
          Traces(s, Asked(g)) + if t.gens.settings == s.gens.settings + 1 && g == t.gens.settings then 1 else 0)
  }

  /** The newest stream generation is not lost. */
  predicate KeepsSource(s: State, t: State) {
    t.setup.streamWanted && !t.stopping ==>
      var g := t.gens.stream;
      var after := Traces(t, Sourced(g)) + One(InstalledGen(t) == Some(g));
      && (g == s.gens.stream && s.setup.streamWanted && !s.stopping ==>
            Traces(s, Sourced(g)) + One(InstalledGen(s) == Some(g)) >= 1 ==> after >= 1)
      && (g != s.gens.stream || !s.setup.streamWanted || s.stopping ==> after >= 1)
  }

  ghost predicate Traced(s: State, t: State) {
    Accounts(s, t) && KeepsSource(s, t)
  }

  lemma TracedKeeps(s: State, t: State)
    requires OneFateEach(s) && StreamComes(s) && Traced(s, t)
    ensures OneFateEach(t) && StreamComes(t)
  {
    hide InFlight;
    hide TimesRetired;
    forall g: nat
      ensures InFlight(t, Asked(g)) + TimesRetired(t, g) == One(1 <= g <= t.gens.settings)
    {
      assert Traces(t, Asked(g)) == InFlight(t, Asked(g)) + TimesRetired(t, g);
    }
    assert Traces(t, Sourced(t.gens.stream)) == InFlight(t, Sourced(t.gens.stream));
    assert Traces(s, Sourced(t.gens.stream)) == InFlight(s, Sourced(t.gens.stream));
  }

  lemma QuietTraced(s: State, step: Step)
    requires step.Stop? || step.UpdateEnter? || step.FirstPrepared? || step.ReadIdentity?
    ensures Traced(s, Next(s, step))
  {
    QuietSame(s, step);
    NothingTraced(s, Next(s, step));
    hide Traces;
  }

  lemma QuietSame(s: State, step: Step)
    requires step.Stop? || step.UpdateEnter? || step.FirstPrepared? || step.ReadIdentity?
    ensures var t := Next(s, step);
      && SameMarks(s, t) && t.gens == s.gens && t.setup == s.setup && (s.stopping ==> t.stopping)
  {
  }

  lemma StartedTraced(s: State)
    ensures Traced(s, Started(s))
  {
    hide Traces;
    if s.worker.NotStarted? && !s.stopping && s.caller.NoCall? {
      var g := NextGen(s, s.config);
      var first := Load(Change(g.gens.settings, g.config, false, None), Starting);
      NothingTraced(s, g);
      AddHelperTraces(g, Started(s), first);
    } else {
      assert Started(s) == s;
    }
  }

  lemma UpdateAppliedTraced(s: State)
    requires s.caller.Entering?
    ensures Traced(s, UpdateApplied(s))
  {
    hide Traces;
    var t := UpdateApplied(s);
    var u := t.(queue := s.queue);
    HandTraces(s, u);
    if t.queue != s.queue {
      EnqueueTraces(u, t, Identity);
    }
  }

  lemma UpdateStreamSpawnedTraced(s: State)
    requires s.caller.StreamDue?
    ensures Traced(s, UpdateStreamSpawned(s))
  {
    hide Traces;
    var t := UpdateStreamSpawned(s);
    var u := t.(helpers := s.helpers);
    HandTraces(s, u);
    if !s.stopping {
      AddHelperTraces(u, t, StreamUp(s.caller.gen, Trying));
    }
  }

  lemma UpdateRequestedTraced(s: State, parses: bool)
    requires s.caller.SettingsDue?
    ensures Traced(s, UpdateRequested(s, parses))
  {
    hide Traces;
    var t := UpdateRequested(s, parses);
    var u := t.(queue := s.queue);
    HandTraces(s, u);
    if t.queue != s.queue {
      EnqueueTraces(u, t, t.queue[|s.queue|]);
    }
  }

  lemma LoadSpawnedTraces(s: State, change: Change)
    ensures forall m: Mark :: Traces(LoadSpawned(s, change), m) == Traces(s, m) + One(m == Asked(change.gen))
  {
    hide Traces;
    if s.stopping {
      RetireTraces(s, LoadSpawned(s, change), change.gen, Dropped);
    } else {
      AddHelperTraces(s, LoadSpawned(s, change), Load(change, Starting));
    }
  }

  lemma UpdateSpawnLoadTraced(s: State)
    requires s.caller.LoadDue?
    ensures Traced(s, LoadSpawned(s.(caller := NoCall), s.caller.change))
  {
    hide Traces;
    var u := s.(caller := NoCall);
    HandTraces(s, u);
    LoadSpawnedTraces(u, s.caller.change);
  }

  lemma SpawnLoadTraced(s: State)
    requires s.worker.Checked?
    ensures Traced(s, LoadSpawned(s.(worker := Running), s.worker.change))
  {
    hide Traces;
    var u := s.(worker := Running);
    HandTraces(s, u);
    LoadSpawnedTraces(u, s.worker.change);
  }

  lemma RejectTraces(s: State, config: Config, gen: nat, loadError: bool)
    ensures forall m: Mark :: Traces(Reject(s, config, Some(gen), loadError), m) == Traces(s, m) + One(m == Asked(gen))
  {
    hide Traces;
    RetireTraces(s, Reject(s, config, Some(gen), loadError), gen, if Superseded(s, Some(gen)) then Dropped else Rejected);
  }

  lemma RejectKeepsSettings(s: State, config: Config, gen: nat, loadError: bool)
    ensures var t := Reject(s, config, Some(gen), loadError);
      t.gens.settings == s.gens.settings && t.gens.stream == s.gens.stream && t.setup == s.setup && t.stopping == s.stopping
  {
  }

  /** A load keeps its generation, or retires it. */
  lemma PrepareShape(s: State, step: Step)
    requires Enabled(s, step) && (step.ParseFirst? || step.CheckCurrent? || step.AcquireDone? || step.RejectLoad?)
    ensures var h, t := step.helper, Next(s, step);
      var change := s.helpers[h].change;
      && |t.helpers| == |s.helpers| && SameMarks(s, t.(helpers := s.helpers, gens := t.gens.(retired := s.gens.retired)))
      && t.helpers == s.helpers[h := t.helpers[h]]
      && t.gens.settings == s.gens.settings && t.gens.stream == s.gens.stream
      && t.setup == s.setup && t.stopping == s.stopping
      && (if t.gens.retired == s.gens.retired then HelperMark(t.helpers[h]) == Some(Asked(change.gen))
          else
            && |t.gens.retired| == |s.gens.retired| + 1 && HelperMark(t.helpers[h]).None?
            && t.gens.retired == s.gens.retired + [Retired(change.gen, t.gens.retired[|s.gens.retired|].fate)])
  {
  }

  lemma PrepareTraced(s: State, step: Step)
    requires Enabled(s, step) && (step.ParseFirst? || step.CheckCurrent? || step.AcquireDone? || step.RejectLoad?)
    ensures Traced(s, Next(s, step))
  {
    hide Traces;
    var h := step.helper;
    var change := s.helpers[h].change;
    var t := Next(s, step);
    var u := SetHelper(s, h, t.helpers[h]);
    PrepareShape(s, step);
    hide Next;
    SetHelperTraces(s, u, h, t.helpers[h]);
    if t.gens.retired == s.gens.retired {
      NothingTraced(u, t);
    } else {
      RetireTraces(u, t, change.gen, t.gens.retired[|s.gens.retired|].fate);
    }
  }

  lemma LoadedQueuedTraced(s: State, h: nat)
    requires Enabled(s, QueueLoaded(h))
    ensures Traced(s, LoadedQueued(s, h))
  {
    hide Traces;
    var change := s.helpers[h].change;
    var t := LoadedQueued(s, h);
    var u := SetHelper(s, h, Ended);
    SetHelperTraces(s, u, h, Ended);
    if IsCurrent(s, change) {
      EnqueueTraces(u, t, Settings(change));
    } else {
      RetireTraces(u, t, change.gen, Dropped);
    }
  }

  lemma StreamStepTraced(s: State, step: Step)
    requires Enabled(s, step) && (step.TryStream? || step.RetryStream?)
    ensures Traced(s, Next(s, step))
  {
    hide Traces;
    var t := Next(s, step);
    SetHelperTraces(s, t, step.helper, t.helpers[step.helper]);
  }

  lemma StreamQueuedTraced(s: State, h: nat)
    requires Enabled(s, QueueStream(h))
    ensures Traced(s, StreamQueued(s, h))
  {
    hide Traces;
    var t := StreamQueued(s, h);
    var u := SetHelper(s, h, Ended);
    SetHelperTraces(s, u, h, Ended);
    if t.queue == s.queue {
      NothingTraced(u, t);
    } else {
      EnqueueTraces(u, t, t.queue[|s.queue|]);
    }
  }

  lemma TakeQueueTraced(s: State)
    requires s.local == []
    ensures Traced(s, s.(local := s.queue, queue := []))
  {
  }

  lemma IdentityHeadTraced(s: State)
    requires Enabled(s, ApplyHead) && s.local[0].Identity?
    ensures Traced(s, HeadApplied(s))
  {
    hide Traces;
    DropHeadTraces(s, HeadApplied(s));
  }

  lemma StreamHeadTraced(s: State)
    requires Enabled(s, ApplyHead) && s.local[0].Stream?
    ensures Traced(s, HeadApplied(s))
  {
    hide Traces;
    DropHeadTraces(s, HeadApplied(s));
  }

  lemma SettingsHeadTraced(s: State)
    requires Enabled(s, ApplyHead) && s.local[0].Settings?
    ensures Traced(s, HeadApplied(s))
  {
    hide Traces;
    var rest := DropHead(s);
    var change := s.local[0].change;
    var t := ChangeTaken(rest, change);
    DropHeadTraces(s, rest);
    if IsCurrent(s, change) {
      HandTraces(rest, t);
    } else {
      RetireTraces(rest, t, change.gen, Dropped);
    }
  }

  lemma SpawnStreamTraced(s: State)
    requires s.worker.StartingStream?
    ensures Traced(s, Next(s, SpawnStream))
  {
    hide Traces;
    var t := Next(s, SpawnStream);
    var u := t.(helpers := s.helpers);
    HandTraces(s, u);
    if !s.stopping {
      AddHelperTraces(u, t, StreamUp(s.worker.gen, Trying));
    }
  }

  lemma InstallFailedTraced(s: State, change: Change)
    requires WorkerMark(s.worker) == Some(Asked(change.gen))
    ensures Traced(s, InstallFailed(s, change))
  {
    hide Traces;
    var u := Release(s.(worker := Running), change.detector);
    HandTraces(s, u);
    RejectTraces(u, change.config, change.gen, false);
    RejectKeepsSettings(u, change.config, change.gen, false);
    hide Reject;
  }

  /** The worker retires the generation in its hands and may ask for the stream. */
  lemma FinishTraced(s: State, t: State, gen: nat, fate: Fate)
    requires WorkerMark(s.worker) == Some(Asked(gen)) && t.gens.retired == s.gens.retired + [Retired(gen, fate)]
    requires SameMarks(s, t.(worker := s.worker, gens := t.gens.(retired := s.gens.retired)))
    requires t.gens.settings == s.gens.settings && t.setup.stream == s.setup.stream && t.stopping == s.stopping
    requires t.setup.streamWanted
    requires if s.setup.streamWanted then t.worker.Running? && t.gens.stream == s.gens.stream
      else t.worker == StartingStream(t.gens.stream)
    ensures Traced(s, t)
  {
    hide Traces;
    var u := s.(worker := t.worker);
    HandTraces(s, u);
    RetireTraces(u, t, gen, fate);
  }

  lemma BuiltShape(s: State, change: Change, identity: int)
    requires s.worker == Building(change, identity) && change.detector.Some?
    ensures var t := Built(s, change, identity);
      && t.gens.retired == s.gens.retired + [Retired(change.gen, Applied)]
      && SameMarks(s, t.(worker := s.worker, gens := t.gens.(retired := s.gens.retired)))
      && t.gens.settings == s.gens.settings && t.setup.stream == s.setup.stream && t.stopping == s.stopping
      && t.setup.streamWanted
      && (if s.setup.streamWanted then t.worker.Running? && t.gens.stream == s.gens.stream
          else t.worker == StartingStream(t.gens.stream))
  {
  }

  lemma ReconfiguredShape(s: State, change: Change, hookRaises: bool)
    requires s.worker == Checked(change) && s.setup.pipeline.Some?
    ensures var t := Reconfigured(s, change, hookRaises);
      && t.gens.retired == s.gens.retired
           + [Retired(change.gen, if hookRaises && change.detector.Some? then Crashed else Applied)]
      && SameMarks(s, t.(worker := s.worker, gens := t.gens.(retired := s.gens.retired)))
      && t.gens.settings == s.gens.settings && t.setup.stream == s.setup.stream && t.stopping == s.stopping
      && t.setup.streamWanted == s.setup.streamWanted && t.worker.Running? && t.gens.stream == s.gens.stream
  {
  }

  /** A pipeline exists exactly once a stream was asked for. */
  predicate WantedWithPipeline(s: State) {
    s.setup.streamWanted <==> s.setup.pipeline.Some?
  }

  lemma InstallTraced(s: State, step: Step)
    requires Enabled(s, step) && WantedWithPipeline(s) && (step.BuildDone? || step.ApplyDone?)
    ensures Traced(s, Next(s, step))
  {
    var change := s.worker.change;
    hide Traced;
    hide Built;
    hide Reconfigured;
    if step.BuildDone? {
      BuiltShape(s, change, s.worker.identity);
      FinishTraced(s, Next(s, step), change.gen, Applied);
    } else {
      ReconfiguredShape(s, change, step.hookRaises);
      FinishTraced(s, Next(s, step), change.gen, if step.hookRaises && change.detector.Some? then Crashed else Applied);
    }
  }

  lemma {:induction false} DropsCount(items: seq<Item>, g: nat)
    ensures Count(OfGen(g), DropsOf(items)) == Count(ItemMarked(Asked(g)), items)
  {
    if items != [] {
      var front, last := items[..|items| - 1], items[|items| - 1];
      DropsCount(front, g);
      if last.Settings? {
        CountAppend(OfGen(g), DropsOf(front), Retired(last.change.gen, Dropped));
      } else {
        assert DropsOf(items) == DropsOf(front);
      }
    }
  }

  lemma CleanedUpShape(s: State)
    ensures var t := CleanedUp(s);
      && t.helpers == s.helpers && t.queue == [] && t.local == s.local && t.caller == s.caller && t.worker.Exited?
      && t.stopping && t.gens == s.gens.(retired := s.gens.retired + DropsOf(s.queue))
  {
  }

  lemma CleanedUpTraced(s: State)
    requires WorkerMark(s.worker).None?
    ensures Traced(s, CleanedUp(s))
  {
    CleanedUpShape(s);
    var t := CleanedUp(s);
    hide CleanedUp;
    forall g: nat
      ensures Traces(t, Asked(g)) == Traces(s, Asked(g))
    {
      CountConcat(OfGen(g), s.gens.retired, DropsOf(s.queue));
      DropsCount(s.queue, g);
    }
    hide Traces;
  }

  lemma NextTraced(s: State, step: Step)
    requires Enabled(s, step) && WantedWithPipeline(s)
    ensures Traced(s, Next(s, step))
  {
    hide Traced;
    match step
    case Stop | UpdateEnter(_) | FirstPrepared | ReadIdentity => QuietTraced(s, step);
    case Start => StartedTraced(s);
    case UpdateApply => UpdateAppliedTraced(s);
    case UpdateSpawnStream => UpdateStreamSpawnedTraced(s);
    case UpdateRequest(parses) => UpdateRequestedTraced(s, parses);
    case UpdateSpawnLoad => UpdateSpawnLoadTraced(s);
    case ParseFirst(_, _) | CheckCurrent(_) | AcquireDone(_, _) | RejectLoad(_) => PrepareTraced(s, step);
    case QueueLoaded(h) => LoadedQueuedTraced(s, h);
    case TryStream(_, _) | RetryStream(_) => StreamStepTraced(s, step);
    case QueueStream(h) => StreamQueuedTraced(s, h);
    case TakeQueue => TakeQueueTraced(s);
    case ApplyHead =>
      if s.local[0].Identity? {
        IdentityHeadTraced(s);
      } else if s.local[0].Stream? {
        StreamHeadTraced(s);
      } else {
        SettingsHeadTraced(s);
      }
    case SpawnLoad => SpawnLoadTraced(s);
    case SpawnStream => SpawnStreamTraced(s);
    case BuildFailed | ApplyFailed => InstallFailedTraced(s, s.worker.change);
    case BuildDone | ApplyDone(_) => InstallTraced(s, step);
    case Exit | CleanUpUnstarted => CleanedUpTraced(s);
  }
}
