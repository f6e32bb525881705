/**
 * Linear ownership of detectors and streams in the camera worker's protocol: over every interleaving
 * each one is in exactly one place until it is given back or stopped, once.
 */
module WorkerOwnership {
  import opened Options
  import opened Seqs
  import opened WorkerProtocol

  /** A detector acquired from the pool or a stream that was created. */
  datatype Token = Detector(n: nat) | Feed(n: nat)

  // ---- where a token can be ------------------------------------------------------------------------

  function AsDetector(o: Option<nat>): Option<Token> {
    if o.Some? then Some(Detector(o.value)) else None
  }

  function HelperToken(helper: Helper): Option<Token> {
    match helper
    case Load(change, _) => AsDetector(change.detector)
    case StreamUp(_, phase) => if phase.Up? then Some(Feed(phase.id)) else None
    case Ended => None
  }

  function ItemToken(item: Item): Option<Token> {
    match item
    case Settings(change) => AsDetector(change.detector)
    case Stream(_, id) => Some(Feed(id))
    case Identity => None
  }

  function WorkerToken(worker: Worker): Option<Token> {
    if worker.Checked? || worker.Building? then AsDetector(worker.change.detector) else None
  }

  function HelperHas(t: Token): Helper -> bool {
    (h: Helper) => HelperToken(h) == Some(t)
  }

  function ItemHas(t: Token): Item -> bool {
    (i: Item) => ItemToken(i) == Some(t)
  }

  /** The worker holds the detector or the pipeline runs it; the stream is the one in use. */
  predicate Installs(setup: Setup, t: Token) {
    match t
    case Detector(d) =>
      setup.detector == Some(d) || (setup.pipeline.Some? && setup.pipeline.value.model == d)
    case Feed(f) => setup.stream.Some? && setup.stream.value.id == f
  }

  predicate IsInstalled(s: State, t: Token) {
    !s.worker.Exited? && Installs(s.setup, t)
  }

  /** How often the token was given back, lost or stopped. */
  function Gone(ledger: Ledger, t: Token): nat {
    match t
    case Detector(d) => Count(Is(d), ledger.released) + Count(Is(d), ledger.lost)
    case Feed(f) => Count(Is(f), ledger.stopped)
  }

  predicate Exists(ledger: Ledger, t: Token) {
    match t
    case Detector(d) => d < |ledger.acquired|
    case Feed(f) => f < ledger.streams
  }

  /** In how many places the token is: a helper, the queue, the local list, the worker's hands, installed, gone. */
  function Places(s: State, t: Token): nat {
    Count(HelperHas(t), s.helpers) + Count(ItemHas(t), s.queue) + Count(ItemHas(t), s.local)
    + One(WorkerToken(s.worker) == Some(t)) + One(IsInstalled(s, t)) + Gone(s.ledger, t)
  }

  ghost predicate OnePlaceEach(s: State) {
    forall t: Token :: Places(s, t) == One(Exists(s.ledger, t))
  }

  /** Each raise of the pipeline's model hook costs one detector: lost already, or lost when the pipeline goes. */
  ghost predicate LossOk(s: State) {
    |s.ledger.lost| + One(Diverged(s) && !s.worker.Exited?) == s.ledger.hookRaises
  }

  ghost predicate HelperOk(helper: Helper) {
    helper.Load? ==> (helper.phase.Loaded? <==> helper.change.detector.Some?)
  }

  ghost predicate BringsNothing(items: seq<Item>) {
    forall i | 0 <= i < |items| :: ItemToken(items[i]).None?
  }

  /** Which threads can hold what. */
  ghost predicate Shape(s: State) {
    && (forall h | 0 <= h < |s.helpers| :: HelperOk(s.helpers[h]))
    && (s.caller.LoadDue? ==> s.caller.change.detector.None?)
    && (s.worker.Building? ==> s.worker.change.detector.Some?)
    && (s.setup.pipeline.Some? <==> s.setup.detector.Some?)
    && (s.worker.NotStarted? || s.worker.Preparing? ==> s.local == [] && s.setup == NewSetup)
    && (s.worker.Exited? ==> s.stopping && s.local == [] && BringsNothing(s.queue))
  }

  ghost predicate Owned(s: State) {
    Shape(s) && OnePlaceEach(s) && LossOk(s)
  }

  // ---- shape and losses ----------------------------------------------------------------------------

  lemma ShapeOfStart(s: State, step: Step)
    requires Shape(s) && (step.Start? || step.Stop? || step.UpdateEnter? || step.FirstPrepared?)
    ensures Shape(Next(s, step))
  {
  }

  lemma ShapeOfUpdate(s: State, step: Step)
    requires Shape(s) && (step.UpdateApply? || step.UpdateSpawnStream? || step.UpdateSpawnLoad?)
    ensures Shape(Next(s, step))
  {
  }

  lemma ShapeOfRequest(s: State, step: Step)
    requires Shape(s) && step.UpdateRequest?
    ensures Shape(Next(s, step))
  {
  }

  lemma ShapeOfPrepare(s: State, step: Step)
    requires Shape(s) && (step.ParseFirst? || step.CheckCurrent?)
    ensures Shape(Next(s, step))
  {
  }

  lemma ShapeOfLoad(s: State, step: Step)
    requires Shape(s) && (step.AcquireDone? || step.QueueLoaded?)
    ensures Shape(Next(s, step))
  {
  }

  lemma ShapeOfStream(s: State, step: Step)
    requires Shape(s) && (step.TryStream? || step.RetryStream?)
    ensures Shape(Next(s, step))
  {
  }

  lemma ShapeOfHandOver(s: State, step: Step)
    requires Shape(s) && (step.RejectLoad? || step.QueueStream?)
    ensures Shape(Next(s, step))
  {
  }

  lemma ShapeOfTake(s: State, step: Step)
    requires Shape(s) && (step.TakeQueue? || step.SpawnLoad? || step.SpawnStream? || step.ReadIdentity?)
    ensures Shape(Next(s, step))
  {
  }

  lemma ShapeOfApply(s: State, step: Step)
    requires Shape(s) && (step.ApplyHead? || step.Exit? || step.CleanUpUnstarted?)
    ensures Shape(Next(s, step))
  {
  }

  lemma ShapeOfBuild(s: State, step: Step)
    requires Shape(s) && (step.BuildDone? || step.BuildFailed?)
    ensures Shape(Next(s, step))
  {
  }

  lemma ShapeOfReconfigure(s: State, step: Step)
    requires Shape(s) && (step.ApplyDone? || step.ApplyFailed?)
    ensures Shape(Next(s, step))
  {
  }

  lemma NextKeepsShape(s: State, step: Step)
    requires Shape(s)
    ensures Shape(Next(s, step))
  {
    hide Shape;
    hide Next;
    match step
    case Start | Stop | UpdateEnter(_) | FirstPrepared => ShapeOfStart(s, step);
    case UpdateApply | UpdateSpawnStream | UpdateSpawnLoad => ShapeOfUpdate(s, step);
    case UpdateRequest(_) => ShapeOfRequest(s, step);
    case ParseFirst(_, _) | CheckCurrent(_) => ShapeOfPrepare(s, step);
    case AcquireDone(_, _) | QueueLoaded(_) => ShapeOfLoad(s, step);
    case TryStream(_, _) | RetryStream(_) => ShapeOfStream(s, step);
    case RejectLoad(_) | QueueStream(_) => ShapeOfHandOver(s, step);
    case TakeQueue | SpawnLoad | SpawnStream | ReadIdentity => ShapeOfTake(s, step);
    case ApplyHead | Exit | CleanUpUnstarted => ShapeOfApply(s, step);
    case BuildDone | BuildFailed => ShapeOfBuild(s, step);
    case ApplyDone(_) | ApplyFailed => ShapeOfReconfigure(s, step);
  }

  /** The detector in the worker's hands is not installed. */
  lemma InHandIsNotInstalled(s: State)
    requires OnePlaceEach(s) && !s.worker.Exited? && WorkerToken(s.worker).Some?
    ensures !Installs(s.setup, WorkerToken(s.worker).value)
  {
    assert Places(s, WorkerToken(s.worker).value) <= 1;
  }

  lemma InstallKeepsLosses(s: State, step: Step)
    requires Shape(s) && LossOk(s)
    requires WorkerToken(s.worker).Some? && !s.worker.Exited? ==> !Installs(s.setup, WorkerToken(s.worker).value)
    requires step.BuildDone? || step.ApplyDone? || step.Exit? || step.CleanUpUnstarted?
    ensures LossOk(Next(s, step))
  {
  }

  /** Loses nothing and installs nothing. */
  predicate KeepsModels(s: State, t: State) {
    && t.ledger.lost == s.ledger.lost && t.ledger.hookRaises == s.ledger.hookRaises
    && t.setup.detector == s.setup.detector && t.worker.Exited? == s.worker.Exited?
    && (t.setup.pipeline.Some? <==> s.setup.pipeline.Some?)
    && (s.setup.pipeline.Some? ==> t.setup.pipeline.value.model == s.setup.pipeline.value.model)
  }

  lemma CallerKeepsModels(s: State, step: Step)
    requires step.Start? || step.Stop? || step.UpdateEnter? || step.UpdateApply? || step.UpdateSpawnStream?
      || step.UpdateRequest? || step.UpdateSpawnLoad?
    ensures KeepsModels(s, Next(s, step))
  {
  }

  lemma HelperKeepsModels(s: State, step: Step)
    requires step.ParseFirst? || step.CheckCurrent? || step.AcquireDone? || step.QueueLoaded? || step.RejectLoad?
      || step.TryStream? || step.RetryStream? || step.QueueStream?
    ensures KeepsModels(s, Next(s, step))
  {
  }

  lemma WorkerKeepsModels(s: State, step: Step)
    requires step.FirstPrepared? || step.TakeQueue? || step.SpawnLoad? || step.ReadIdentity? || step.SpawnStream?
    ensures KeepsModels(s, Next(s, step))
  {
  }

  lemma ApplyKeepsModels(s: State, step: Step)
    requires step.ApplyHead? || step.BuildFailed? || step.ApplyFailed?
    ensures KeepsModels(s, Next(s, step))
  {
  }

  lemma NextKeepsLosses(s: State, step: Step)
    requires Shape(s) && OnePlaceEach(s) && LossOk(s)
    ensures LossOk(Next(s, step))
  {
    var t := Next(s, step);
    if WorkerToken(s.worker).Some? && !s.worker.Exited? {
      InHandIsNotInstalled(s);
    }
    hide Next;
    hide Shape;
    hide OnePlaceEach;
    match step
    case BuildDone | ApplyDone(_) | Exit | CleanUpUnstarted => InstallKeepsLosses(s, step); hide *;
    case Start | Stop | UpdateEnter(_) | UpdateApply | UpdateSpawnStream | UpdateRequest(_) | UpdateSpawnLoad =>
      CallerKeepsModels(s, step);
    case ParseFirst(_, _) | CheckCurrent(_) | AcquireDone(_, _) | QueueLoaded(_) | RejectLoad(_) | TryStream(_, _)
       | RetryStream(_) | QueueStream(_) =>
      HelperKeepsModels(s, step);
    case ApplyHead | BuildFailed | ApplyFailed => ApplyKeepsModels(s, step);
    case _ => WorkerKeepsModels(s, step);
  }

  // ---- how the primitive updates move tokens --------------------------------------------------------

  /** The worker thread, what it installed and the ledger stay. */
  predicate SameHolders(s: State, t: State) {
    && t.worker == s.worker && t.setup == s.setup && t.ledger == s.ledger
  }

  lemma SetHelperMoves(s: State, t: State, h: nat, helper: Helper)
    requires h < |s.helpers| && t.helpers == s.helpers[h := helper]
    requires SameHolders(s, t) && t.queue == s.queue && t.local == s.local
    ensures forall k: Token ::
      Places(t, k) == Places(s, k) - One(HelperToken(s.helpers[h]) == Some(k)) + One(HelperToken(helper) == Some(k))
  {
    forall k: Token
      ensures Places(t, k) ==
        Places(s, k) - One(HelperToken(s.helpers[h]) == Some(k)) + One(HelperToken(helper) == Some(k))
    {
      CountUpdate(HelperHas(k), s.helpers, h, helper);
    }
  }

  lemma AddHelperMoves(s: State, t: State, helper: Helper)
    requires t.helpers == s.helpers + [helper]
    requires SameHolders(s, t) && t.queue == s.queue && t.local == s.local
    ensures forall k: Token :: Places(t, k) == Places(s, k) + One(HelperToken(helper) == Some(k))
  {
    forall k: Token
      ensures Places(t, k) == Places(s, k) + One(HelperToken(helper) == Some(k))
    {
      CountAppend(HelperHas(k), s.helpers, helper);
    }
  }

  lemma EnqueueMoves(s: State, t: State, item: Item)
    requires t.queue == s.queue + [item]
    requires SameHolders(s, t) && t.helpers == s.helpers && t.local == s.local
    ensures forall k: Token :: Places(t, k) == Places(s, k) + One(ItemToken(item) == Some(k))
  {
    forall k: Token
      ensures Places(t, k) == Places(s, k) + One(ItemToken(item) == Some(k))
    {
      CountAppend(ItemHas(k), s.queue, item);
    }
  }

  lemma DropHeadMoves(s: State, t: State)
    requires s.local != [] && t.local == s.local[1..]
    requires SameHolders(s, t) && t.helpers == s.helpers && t.queue == s.queue
    ensures forall k: Token :: Places(t, k) == Places(s, k) - One(ItemToken(s.local[0]) == Some(k))
  {
    forall k: Token
      ensures Places(t, k) == Places(s, k) - One(ItemToken(s.local[0]) == Some(k))
    {
      CountHead(ItemHas(k), s.local);
    }
  }

  /** Helpers, queue and local list stay; the worker's hands, the setup and the ledger account for the rest. */
  lemma WorkerMoves(s: State, t: State)
    requires t.helpers == s.helpers && t.queue == s.queue && t.local == s.local
    ensures forall k: Token ::
      Places(t, k) == Places(s, k)
        - One(WorkerToken(s.worker) == Some(k)) - One(IsInstalled(s, k)) - Gone(s.ledger, k)
        + One(WorkerToken(t.worker) == Some(k)) + One(IsInstalled(t, k)) + Gone(t.ledger, k)
  {
  }

  lemma CountOpt(o: Option<nat>, n: nat)
    ensures Count(Is(n), Opt(o)) == One(o == Some(n))
  {
    if o.Some? {
      assert Opt(o)[..0] == [];
    }
  }

  lemma ReleaseMoves(s: State, detector: Option<nat>)
    ensures forall k: Token :: Places(Release(s, detector), k) == Places(s, k) + One(AsDetector(detector) == Some(k))
  {
    forall k: Token
      ensures Places(Release(s, detector), k) == Places(s, k) + One(AsDetector(detector) == Some(k))
    {
      if k.Detector? {
        CountConcat(Is(k.n), s.ledger.released, Opt(detector));
        CountOpt(detector, k.n);
      }
    }
  }

  lemma StopMoves(s: State, id: nat)
    ensures forall k: Token :: Places(StopStream(s, id), k) == Places(s, k) + One(k == Feed(id))
  {
    forall k: Token
      ensures Places(StopStream(s, id), k) == Places(s, k) + One(k == Feed(id))
    {
      if k.Feed? {
        CountAppend(Is(k.n), s.ledger.stopped, id);
      }
    }
  }

  lemma LostMoves(s: State, detector: nat)
    ensures forall k: Token :: Places(Lost(s, detector), k) == Places(s, k) + One(k == Detector(detector))
  {
    forall k: Token
      ensures Places(Lost(s, detector), k) == Places(s, k) + One(k == Detector(detector))
    {
      if k.Detector? {
        CountAppend(Is(k.n), s.ledger.lost, detector);
      }
    }
  }

  /** Bookkeeping of generations and versions moves nothing. */
  predicate SameTokens(s: State, t: State) {
    && t.helpers == s.helpers && t.queue == s.queue && t.local == s.local && t.ledger == s.ledger
    && WorkerToken(t.worker) == WorkerToken(s.worker) && t.worker.Exited? == s.worker.Exited?
    && t.setup.detector == s.setup.detector && t.setup.stream == s.setup.stream
    && (t.setup.pipeline.Some? <==> s.setup.pipeline.Some?)
    && (s.setup.pipeline.Some? ==> t.setup.pipeline.value.model == s.setup.pipeline.value.model)
  }

  lemma NothingMoves(s: State, t: State)
    requires SameTokens(s, t)
    ensures forall k: Token :: Places(t, k) == Places(s, k)
  {
  }

  lemma AnotherAcquired(s: State, t: State)
    requires t == s.(ledger := s.ledger.(acquired := t.ledger.acquired, streams := t.ledger.streams))
    ensures forall k: Token :: Places(t, k) == Places(s, k)
  {
  }

  // ---- steps of the caller and the helpers ------------------------------------------------------------

  lemma QuietCaller(s: State, step: Step)
    requires step.Stop? || step.UpdateEnter? || step.FirstPrepared? || step.ReadIdentity?
    ensures SameTokens(s, Next(s, step))
  {
  }

  lemma StartedKeeps(s: State)
    requires OnePlaceEach(s)
    ensures OnePlaceEach(Started(s))
  {
    if s.worker.NotStarted? && !s.stopping && s.caller.NoCall? {
      var g := NextGen(s, s.config);
      var first := Load(Change(g.gens.settings, g.config, false, None), Starting);
      hide Places;
      NothingMoves(s, g);
      AddHelperMoves(g, AddHelper(g, first), first);
      NothingMoves(AddHelper(g, first), Started(s));
    }
  }

  lemma UpdateAppliedKeeps(s: State)
    requires OnePlaceEach(s) && s.caller.Entering?
    ensures OnePlaceEach(UpdateApplied(s))
  {
    var t := UpdateApplied(s);
    hide Places;
    if t.queue == s.queue {
      NothingMoves(s, t);
    } else {
      var u := t.(queue := s.queue);
      assert t.queue == s.queue + [Identity];
      NothingMoves(s, u);
      EnqueueMoves(u, t, Identity);
    }
  }

  lemma UpdateStreamSpawnedKeeps(s: State)
    requires OnePlaceEach(s) && s.caller.StreamDue?
    ensures OnePlaceEach(UpdateStreamSpawned(s))
  {
    var t := UpdateStreamSpawned(s);
    hide Places;
    if s.stopping {
      NothingMoves(s, t);
    } else {
      AddHelperMoves(s, t, StreamUp(s.caller.gen, Trying));
    }
  }

  lemma UpdateRequestedKeeps(s: State, parses: bool)
    requires OnePlaceEach(s) && s.caller.SettingsDue?
    ensures OnePlaceEach(UpdateRequested(s, parses))
  {
    var t := UpdateRequested(s, parses);
    hide Places;
    if t.queue == s.queue {
      NothingMoves(s, t);
    } else {
      var u := t.(queue := s.queue);
      NothingMoves(s, u);
      EnqueueMoves(u, t, t.queue[|s.queue|]);
    }
  }

  lemma LoadSpawnedKeeps(s: State, change: Change)
    requires OnePlaceEach(s) && change.detector.None?
    ensures OnePlaceEach(LoadSpawned(s, change))
  {
    var t := LoadSpawned(s, change);
    hide Places;
    if s.stopping {
      NothingMoves(s, t);
    } else {
      AddHelperMoves(s, t, Load(change, Starting));
    }
  }

  lemma FirstParsedKeeps(s: State, h: nat, ok: bool)
    requires Owned(s) && Enabled(s, ParseFirst(h, ok))
    ensures OnePlaceEach(FirstParsed(s, h, ok))
  {
    assert HelperOk(s.helpers[h]);
    var t := FirstParsed(s, h, ok);
    var u := SetHelper(s, h, t.helpers[h]);
    hide Places;
    SetHelperMoves(s, u, h, t.helpers[h]);
    NothingMoves(u, t);
  }

  lemma CurrentCheckedKeeps(s: State, h: nat)
    requires Owned(s) && Enabled(s, CheckCurrent(h))
    ensures OnePlaceEach(CurrentChecked(s, h))
  {
    assert HelperOk(s.helpers[h]);
    var t := CurrentChecked(s, h);
    var u := SetHelper(s, h, t.helpers[h]);
    hide Places;
    SetHelperMoves(s, u, h, t.helpers[h]);
    NothingMoves(u, t);
  }

  lemma RejectLoadKeeps(s: State, h: nat)
    requires Owned(s) && Enabled(s, RejectLoad(h))
    ensures OnePlaceEach(Next(s, RejectLoad(h)))
  {
    assert HelperOk(s.helpers[h]);
    var t := Next(s, RejectLoad(h));
    var u := SetHelper(s, h, t.helpers[h]);
    hide Places;
    SetHelperMoves(s, u, h, t.helpers[h]);
    NothingMoves(u, t);
  }

  lemma AcquiredKeeps(s: State, h: nat, ok: bool)
    requires Owned(s) && Enabled(s, AcquireDone(h, ok))
    ensures OnePlaceEach(Acquired(s, h, ok))
  {
    assert HelperOk(s.helpers[h]);
    var t := Acquired(s, h, ok);
    var u := t.(ledger := s.ledger);
    hide Places;
    hide Shape;
    hide LossOk;
    SetHelperMoves(s, u, h, t.helpers[h]);
    AnotherAcquired(u, t);
  }

  lemma LoadedQueuedKeeps(s: State, h: nat)
    requires Owned(s) && Enabled(s, QueueLoaded(h))
    ensures OnePlaceEach(LoadedQueued(s, h))
  {
    var change := s.helpers[h].change;
    var e := SetHelper(s, h, Ended);
    hide Places;
    SetHelperMoves(s, e, h, Ended);
    EnqueueMoves(e, Enqueue(e, Settings(change)), Settings(change));
    ReleaseMoves(e, change.detector);
    var r := Release(e, change.detector);
    NothingMoves(r, Retire(r, change.gen, Dropped));
  }

  lemma StreamTriedKeeps(s: State, h: nat, attempt: StreamAttempt)
    requires OnePlaceEach(s) && Enabled(s, TryStream(h, attempt))
    ensures OnePlaceEach(StreamTried(s, h, attempt))
  {
    hide Places;
    var t := StreamTried(s, h, attempt);
    var u := SetHelper(s, h, t.helpers[h]);
    SetHelperMoves(s, u, h, t.helpers[h]);
    var v := u.(ledger := u.ledger.(streams := t.ledger.streams));
    AnotherAcquired(u, v);
    if attempt.StartFailed? {
      StopMoves(v, s.ledger.streams);
    }
  }

  lemma StreamRetriedKeeps(s: State, h: nat)
    requires OnePlaceEach(s) && Enabled(s, RetryStream(h))
    ensures OnePlaceEach(StreamRetried(s, h))
  {
    var t := StreamRetried(s, h);
    hide Places;
    SetHelperMoves(s, t, h, t.helpers[h]);
  }

  lemma StreamQueuedKeeps(s: State, h: nat)
    requires OnePlaceEach(s) && Enabled(s, QueueStream(h))
    ensures OnePlaceEach(StreamQueued(s, h))
  {
    var gen, id := s.helpers[h].gen, s.helpers[h].phaseS.id;
    var e := SetHelper(s, h, Ended);
    hide Places;
    SetHelperMoves(s, e, h, Ended);
    EnqueueMoves(e, Enqueue(e, Item.Stream(gen, id)), Item.Stream(gen, id));
    StopMoves(e, id);
  }

  // ---- steps of the worker thread ---------------------------------------------------------------------

  lemma TakeQueueKeeps(s: State)
    requires OnePlaceEach(s) && s.local == []
    ensures OnePlaceEach(s.(local := s.queue, queue := []))
  {
  }

  lemma StreamAppliedKeeps(s: State, gen: nat, id: nat)
    requires !s.worker.Exited? && WorkerToken(s.worker).None? && !IsInstalled(s, Feed(id))
    ensures forall k: Token :: Places(StreamApplied(s, gen, id), k) == Places(s, k) + One(k == Feed(id))
  {
    StopMoves(s, id);
    var i := InstallStream(s, gen, id);
    WorkerMoves(s, i);
    if s.setup.stream.Some? {
      StopMoves(i, s.setup.stream.value.id);
    }
    hide Places;
  }

  lemma ChangeTakenKeeps(s: State, change: Change)
    requires WorkerToken(s.worker).None? && !s.worker.Exited?
    ensures forall k: Token :: Places(ChangeTaken(s, change), k) == Places(s, k) + One(AsDetector(change.detector) == Some(k))
  {
    WorkerMoves(s, s.(worker := Checked(change)));
    ReleaseMoves(s, change.detector);
    var r := Release(s, change.detector);
    NothingMoves(r, Retire(r, change.gen, Dropped));
    hide Places;
  }

  lemma IdentityHeadKeeps(s: State)
    requires OnePlaceEach(s) && Enabled(s, ApplyHead) && s.local[0].Identity?
    ensures OnePlaceEach(HeadApplied(s))
  {
    var rest := DropHead(s);
    hide Places;
    DropHeadMoves(s, rest);
    NothingMoves(rest, IdentityApplied(rest));
  }

  lemma HeadIsNotInstalled(s: State)
    requires OnePlaceEach(s) && Enabled(s, ApplyHead) && s.local[0].Stream?
    ensures !IsInstalled(s, Feed(s.local[0].id))
  {
    var t := Feed(s.local[0].id);
    CountAt(ItemHas(t), s.local, 0);
    assert Places(s, t) <= 1;
  }

  lemma StreamHeadKeeps(s: State)
    requires OnePlaceEach(s) && Enabled(s, ApplyHead) && s.local[0].Stream?
    ensures OnePlaceEach(HeadApplied(s))
  {
    var rest := DropHead(s);
    var gen, id := s.local[0].gen, s.local[0].id;
    HeadIsNotInstalled(s);
    hide Places;
    DropHeadMoves(s, rest);
    StreamAppliedKeeps(rest, gen, id);
    hide StreamApplied;
    assert StreamApplied(rest, gen, id).ledger.acquired == s.ledger.acquired by { StreamAppliedCounts(rest, gen, id); }
    assert StreamApplied(rest, gen, id).ledger.streams == s.ledger.streams by { StreamAppliedCounts(rest, gen, id); }
  }

  lemma StreamAppliedCounts(s: State, gen: nat, id: nat)
    ensures StreamApplied(s, gen, id).ledger.acquired == s.ledger.acquired
    ensures StreamApplied(s, gen, id).ledger.streams == s.ledger.streams
  {
  }

  lemma SettingsHeadKeeps(s: State)
    requires OnePlaceEach(s) && Enabled(s, ApplyHead) && s.local[0].Settings?
    ensures OnePlaceEach(HeadApplied(s))
  {
    var rest := DropHead(s);
    hide Places;
    DropHeadMoves(s, rest);
    ChangeTakenKeeps(rest, s.local[0].change);
    ChangeTakenCounts(rest, s.local[0].change);
    hide ChangeTaken;
  }

  lemma ChangeTakenCounts(s: State, change: Change)
    ensures ChangeTaken(s, change).ledger.acquired == s.ledger.acquired
    ensures ChangeTaken(s, change).ledger.streams == s.ledger.streams
  {
  }

  lemma SpawnLoadKeeps(s: State)
    requires OnePlaceEach(s) && Enabled(s, SpawnLoad)
    ensures OnePlaceEach(Next(s, SpawnLoad))
  {
    var u := s.(worker := Running);
    hide Places;
    NothingMoves(s, u);
    LoadSpawnedKeeps(u, s.worker.change);
  }

  lemma SpawnStreamKeeps(s: State)
    requires OnePlaceEach(s) && Enabled(s, SpawnStream)
    ensures OnePlaceEach(Next(s, SpawnStream))
  {
    var u := s.(worker := Running);
    hide Places;
    NothingMoves(s, u);
    AddHelperMoves(u, AddHelper(u, StreamUp(s.worker.gen, Trying)), StreamUp(s.worker.gen, Trying));
  }

  /** A rejection touches no detector and no stream. */
  lemma FailureTokens(s: State, change: Change)
    ensures SameTokens(Release(s.(worker := Running), change.detector), InstallFailed(s, change))
  {
  }

  lemma FailureExists(s: State, change: Change)
    ensures forall t: Token :: Exists(InstallFailed(s, change).ledger, t) == Exists(s.ledger, t)
  {
  }

  lemma InstallFailedKeeps(s: State, change: Change)
    requires OnePlaceEach(s) && !s.worker.Exited? && WorkerToken(s.worker) == AsDetector(change.detector)
    ensures OnePlaceEach(InstallFailed(s, change))
  {
    var u := s.(worker := Running);
    WorkerMoves(s, u);
    hide Places;
    ReleaseMoves(u, change.detector);
    FailureTokens(s, change);
    hide SameTokens;
    NothingMoves(Release(u, change.detector), InstallFailed(s, change));
    FailureExists(s, change);
    hide InstallFailed;
  }

  // ---- the big moves: a new pipeline, a new model, the end -----------------------------------------------

  /** Giving back before something else is installed: what was installed is gone, or was not there. */
  lemma GiveBackMoves(s: State)
    requires s.setup.pipeline.Some? <==> s.setup.detector.Some?
    ensures forall k: Token | k.Detector? :: Places(GiveBack(s), k) == Places(s, k) + One(Installs(s.setup, k))
    ensures forall k: Token | k.Feed? :: Places(GiveBack(s), k) == Places(s, k)
    ensures GiveBack(s) == s.(ledger := GiveBack(s).ledger)
    ensures GiveBack(s).ledger.acquired == s.ledger.acquired && GiveBack(s).ledger.streams == s.ledger.streams
  {
    var lost := if Diverged(s) then Lost(s, s.setup.pipeline.value.model) else s;
    ReleaseMoves(lost, s.setup.detector);
    if Diverged(s) {
      LostMoves(s, s.setup.pipeline.value.model);
    }
    hide Places;
  }

  lemma BuiltMoves(s: State, change: Change, identity: int)
    requires s.worker == Building(change, identity) && change.detector.Some?
    requires s.setup.pipeline.Some? <==> s.setup.detector.Some?
    ensures forall k: Token :: Places(Built(s, change, identity), k) == Places(s, k)
    ensures SameLedgerCounts(s, Built(s, change, identity))
  {
    var g := GiveBack(s);
    var t := Install(g, change, identity);
    GiveBackMoves(s);
    WorkerMoves(g, t);
    hide GiveBack;
    assert forall k: Token :: Places(t, k) == Places(s, k) by { hide Places; }
    NothingMoves(t, WantStream(t));
  }

  predicate SameLedgerCounts(s: State, t: State) {
    t.ledger.acquired == s.ledger.acquired && t.ledger.streams == s.ledger.streams
  }

  lemma HookRaisedMoves(s: State, change: Change)
    requires s.worker == Checked(change) && change.detector.Some?
    requires s.setup.pipeline.Some? && s.setup.detector.Some? && !Installs(s.setup, Detector(change.detector.value))
    ensures forall k: Token :: Places(HookRaised(s, change), k) == Places(s, k)
    ensures SameLedgerCounts(s, HookRaised(s, change))
  {
    hide Places;
    var previous := s.setup.pipeline.value.model;
    var u := SwapModel(s, change.detector.value).(worker := Running);
    var kept := if Diverged(s) then Lost(u, previous) else u;
    HookSwapMoves(s, u, change.detector.value);
    LostMoves(u, previous);
    var v := kept.(ledger := kept.ledger.(hookRaises := kept.ledger.hookRaises + 1));
    AnotherRaise(kept, v);
    NothingMoves(v, HookRaised(s, change));
  }

  lemma AnotherRaise(s: State, t: State)
    requires t == s.(ledger := s.ledger.(hookRaises := t.ledger.hookRaises))
    ensures forall k: Token :: Places(t, k) == Places(s, k)
  {
  }

  /** The new detector leaves the worker's hands for the pipeline; the worker keeps its own. */
  lemma HookSwapMoves(s: State, u: State, model: nat)
    requires s.setup.pipeline.Some? && s.setup.detector.Some? && !Installs(s.setup, Detector(model))
    requires s.worker.Checked? && s.worker.change.detector == Some(model)
    requires u == SwapModel(s, model).(worker := Running)
    ensures forall k: Token ::
      Places(u, k) == Places(s, k) - One(k == Detector(s.setup.pipeline.value.model) && Diverged(s))
  {
    WorkerMoves(s, u);
    hide Places;
  }

  lemma ModelSwappedMoves(s: State, change: Change)
    requires s.worker == Checked(change) && change.detector.Some?
    requires s.setup.pipeline.Some? && s.setup.detector.Some? && !Installs(s.setup, Detector(change.detector.value))
    ensures forall k: Token :: Places(ModelSwapped(s, change), k) == Places(s, k)
    ensures SameLedgerCounts(s, ModelSwapped(s, change))
  {
    hide Places;
    var previous, own := s.setup.pipeline.value.model, s.setup.detector.value;
    var swapped := SwapModel(s, change.detector.value);
    var u := swapped.(worker := Running, setup := swapped.setup.(detector := change.detector));
    var kept := if Diverged(s) then Lost(u, own) else u;
    var released := Release(kept, Some(previous));
    SwapMoves(s, u, change.detector.value);
    LostMoves(u, own);
    ReleaseMoves(kept, Some(previous));
    NothingMoves(released, ModelSwapped(s, change));
  }

  /** The new detector leaves the worker's hands for the pipeline; what was installed no longer is. */
  lemma SwapMoves(s: State, u: State, model: nat)
    requires s.setup.pipeline.Some? && s.setup.detector.Some? && !Installs(s.setup, Detector(model))
    requires s.worker.Checked? && s.worker.change.detector == Some(model)
    requires u == SwapModel(s, model).(worker := Running, setup := SwapModel(s, model).setup.(detector := Some(model)))
    ensures forall k: Token ::
      Places(u, k) == Places(s, k) - One(k == Detector(s.setup.pipeline.value.model))
        - One(k == Detector(s.setup.detector.value) && Diverged(s))
  {
    WorkerMoves(s, u);
    hide Places;
  }

  lemma ReconfiguredKeeps(s: State, hookRaises: bool)
    requires Shape(s) && OnePlaceEach(s) && Enabled(s, ApplyDone(hookRaises))
    ensures OnePlaceEach(Next(s, ApplyDone(hookRaises)))
  {
    var change := s.worker.change;
    if change.detector.None? {
      NothingMoves(s, Reconfigured(s, change, hookRaises));
    } else {
      InHandIsNotInstalled(s);
      if hookRaises {
        HookRaisedMoves(s, change);
      } else {
        ModelSwappedMoves(s, change);
      }
      hide HookRaised;
      hide ModelSwapped;
    }
    hide Places;
  }

  lemma {:induction false} DetectorsCount(items: seq<Item>, d: nat)
    ensures Count(Is(d), DetectorsOf(items)) == Count(ItemHas(Detector(d)), items)
  {
    if items != [] {
      var front, last := items[..|items| - 1], items[|items| - 1];
      DetectorsCount(front, d);
      CountConcat(Is(d), DetectorsOf(front), Opt(ItemDetector(last)));
      CountOpt(ItemDetector(last), d);
    }
  }

  lemma {:induction false} StreamsCount(items: seq<Item>, f: nat)
    ensures Count(Is(f), StreamsOf(items)) == Count(ItemHas(Feed(f)), items)
  {
    if items != [] {
      var front, last := items[..|items| - 1], items[|items| - 1];
      StreamsCount(front, f);
      CountConcat(Is(f), StreamsOf(front), Opt(ItemStream(last)));
      CountOpt(ItemStream(last), f);
    }
  }

  /** What the clean-up adds to the ledger after giving the detector back. */
  lemma CleanedUpGone(s: State, c: State, t: State, k: Token)
    requires c.setup == s.setup
    requires t.ledger == c.ledger.(
      released := c.ledger.released + DetectorsOf(s.queue),
      stopped := c.ledger.stopped + Opt(InstalledStream(s)) + StreamsOf(s.queue))
    ensures Gone(t.ledger, k) == Gone(c.ledger, k) + Count(ItemHas(k), s.queue) + One(k.Feed? && Installs(s.setup, k))
  {
    match k
    case Detector(d) =>
      CountConcat(Is(d), c.ledger.released, DetectorsOf(s.queue));
      DetectorsCount(s.queue, d);
    case Feed(f) =>
      CountConcat(Is(f), c.ledger.stopped + Opt(InstalledStream(s)), StreamsOf(s.queue));
      CountConcat(Is(f), c.ledger.stopped, Opt(InstalledStream(s)));
      CountOpt(InstalledStream(s), f);
      StreamsCount(s.queue, f);
  }

  lemma CleanedUpMoves(s: State)
    requires s.setup.pipeline.Some? <==> s.setup.detector.Some?
    requires WorkerToken(s.worker).None? && !s.worker.Exited?
    ensures forall k: Token :: Places(CleanedUp(s), k) == Places(s, k)
    ensures SameLedgerCounts(s, CleanedUp(s))
  {
    var c, t := GiveBack(s), CleanedUp(s);
    GiveBackMoves(s);
    hide GiveBack;
    forall k: Token
      ensures Places(t, k) == Places(s, k)
    {
      CleanedUpGone(s, c, t, k);
      hide Gone;
    }
  }

  // ---- every step, every run --------------------------------------------------------------------------

  lemma CallerKeepsPlaces(s: State, step: Step)
    requires Owned(s) && Enabled(s, step)
    requires step.Start? || step.Stop? || step.UpdateEnter? || step.UpdateApply? || step.UpdateSpawnStream?
      || step.UpdateRequest? || step.UpdateSpawnLoad? || step.FirstPrepared? || step.ReadIdentity?
    ensures OnePlaceEach(Next(s, step))
  {
    match step
    case Start => StartedKeeps(s);
    case UpdateApply => UpdateAppliedKeeps(s);
    case UpdateSpawnStream => UpdateStreamSpawnedKeeps(s);
    case UpdateRequest(parses) => UpdateRequestedKeeps(s, parses);
    case UpdateSpawnLoad =>
      var u := s.(caller := NoCall);
      NothingMoves(s, u);
      hide Places;
      LoadSpawnedKeeps(u, s.caller.change);
    case _ =>
      QuietCaller(s, step);
      hide Next;
      NothingMoves(s, Next(s, step));
      hide Places;
  }

  lemma HelperKeepsPlaces(s: State, step: Step)
    requires Owned(s) && Enabled(s, step)
    requires step.ParseFirst? || step.CheckCurrent? || step.AcquireDone? || step.QueueLoaded? || step.RejectLoad?
      || step.TryStream? || step.RetryStream? || step.QueueStream?
    ensures OnePlaceEach(Next(s, step))
  {
    hide OnePlaceEach;
    match step
    case ParseFirst(h, ok) => FirstParsedKeeps(s, h, ok);
    case CheckCurrent(h) => CurrentCheckedKeeps(s, h);
    case AcquireDone(h, ok) => AcquiredKeeps(s, h, ok);
    case QueueLoaded(h) => LoadedQueuedKeeps(s, h);
    case RejectLoad(h) => RejectLoadKeeps(s, h);
    case TryStream(h, attempt) => StreamTriedKeeps(s, h, attempt);
    case RetryStream(h) => StreamRetriedKeeps(s, h);
    case QueueStream(h) => StreamQueuedKeeps(s, h);
  }

  lemma WorkerKeepsPlaces(s: State, step: Step)
    requires Owned(s) && Enabled(s, step)
    requires step.TakeQueue? || step.ApplyHead? || step.SpawnLoad? || step.SpawnStream?
      || step.BuildFailed? || step.ApplyFailed?
    ensures OnePlaceEach(Next(s, step))
  {
    hide OnePlaceEach;
    match step
    case TakeQueue => TakeQueueKeeps(s);
    case ApplyHead =>
      if s.local[0].Identity? {
        IdentityHeadKeeps(s);
      } else if s.local[0].Stream? {
        StreamHeadKeeps(s);
      } else {
        SettingsHeadKeeps(s);
      }
    case SpawnLoad => SpawnLoadKeeps(s);
    case SpawnStream => SpawnStreamKeeps(s);
    case BuildFailed | ApplyFailed => InstallFailedKeeps(s, s.worker.change);
  }

  lemma InstallKeepsPlaces(s: State, step: Step)
    requires Owned(s) && Enabled(s, step)
    requires step.BuildDone? || step.ApplyDone? || step.Exit? || step.CleanUpUnstarted?
    ensures OnePlaceEach(Next(s, step))
  {
    match step
    case BuildDone =>
      BuiltMoves(s, s.worker.change, s.worker.identity);
      hide Places;
      hide Built;
    case ApplyDone(hookRaises) =>
      hide OnePlaceEach;
      ReconfiguredKeeps(s, hookRaises);
    case Exit | CleanUpUnstarted =>
      CleanedUpMoves(s);
      hide Places;
      hide CleanedUp;
  }

  lemma NextKeepsPlaces(s: State, step: Step)
    requires Owned(s)
    ensures OnePlaceEach(Next(s, step))
  {
    if Enabled(s, step) {
      hide *;
      match step
      case ParseFirst(_, _) | CheckCurrent(_) | AcquireDone(_, _) | QueueLoaded(_) | RejectLoad(_) | TryStream(_, _)
         | RetryStream(_) | QueueStream(_) =>
        HelperKeepsPlaces(s, step);
      case TakeQueue | ApplyHead | SpawnLoad | SpawnStream | BuildFailed | ApplyFailed => WorkerKeepsPlaces(s, step);
      case BuildDone | ApplyDone(_) | Exit | CleanUpUnstarted => InstallKeepsPlaces(s, step);
      case _ => CallerKeepsPlaces(s, step);
    }
  }

  lemma NextKeepsOwned(s: State, step: Step)
    requires Owned(s)
    ensures Owned(Next(s, step))
  {
    NextKeepsShape(s, step);
    NextKeepsPlaces(s, step);
    NextKeepsLosses(s, step);
    hide Shape;
    hide OnePlaceEach;
    hide LossOk;
    hide Next;
  }

  lemma {:induction false} RunKeepsOwned(config: Config, seeded: set<int>, steps: seq<Step>)
    ensures Owned(Run(config, seeded, steps))
  {
    if steps != [] {
      RunKeepsOwned(config, seeded, steps[..|steps| - 1]);
      hide Owned;
      NextKeepsOwned(Run(config, seeded, steps[..|steps| - 1]), steps[|steps| - 1]);
    }
  }

  /** Over every interleaving, each detector acquired and each stream created is in exactly one place. */
  lemma OneOwner(config: Config, seeded: set<int>, steps: seq<Step>, t: Token)
    ensures Places(Run(config, seeded, steps), t) == One(Exists(Run(config, seeded, steps).ledger, t))
  {
    RunKeepsOwned(config, seeded, steps);
    hide Run;
  }

  lemma {:induction false} CountTwice(p: nat -> bool, s: seq<nat>, i: nat, j: nat)
    requires i < j < |s| && p(s[i]) && p(s[j])
    ensures Count(p, s) >= 2
  {
    if j == |s| - 1 {
      CountAt(p, s[..j], i);
    } else {
      CountTwice(p, s[..|s| - 1], i, j);
    }
  }

  lemma DistinctByCount(s: seq<nat>)
    requires forall n: nat :: Count(Is(n), s) <= 1
    ensures Distinct(s)
  {
    forall i, j | 0 <= i < j < |s|
      ensures s[i] != s[j]
    {
      if s[i] == s[j] {
        CountTwice(Is(s[i]), s, i, j);
      }
    }
  }

  /** No detector is released twice and no stream is stopped twice. */
  lemma NeverReleasedTwice(config: Config, seeded: set<int>, steps: seq<Step>)
    ensures var ledger := Run(config, seeded, steps).ledger;
      Distinct(ledger.released) && Distinct(ledger.stopped)
  {
    RunKeepsOwned(config, seeded, steps);
    var s := Run(config, seeded, steps);
    hide Run;
    forall n: nat
      ensures Count(Is(n), s.ledger.released) <= 1 && Count(Is(n), s.ledger.stopped) <= 1
    {
      assert Places(s, Detector(n)) <= 1;
      assert Places(s, Feed(n)) <= 1;
    }
    hide *;
    DistinctByCount(s.ledger.released);
    DistinctByCount(s.ledger.stopped);
  }

  lemma InstalledIsLive(s: State, t: Token)
    requires OnePlaceEach(s) && IsInstalled(s, t)
    ensures Gone(s.ledger, t) == 0 && Exists(s.ledger, t)
  {
    assert Places(s, t) == One(Exists(s.ledger, t));
  }

  /** Until the worker cleans up, the pipeline runs an acquired detector that was not given back, on a stream not stopped. */
  lemma FramesRunOnLiveHandles(config: Config, seeded: set<int>, steps: seq<Step>)
    ensures var s := Run(config, seeded, steps);
      !s.worker.Exited? ==>
        && (s.setup.pipeline.Some? ==>
              s.setup.pipeline.value.model < |s.ledger.acquired| && s.setup.pipeline.value.model !in s.ledger.released)
        && (s.setup.stream.Some? ==>
              s.setup.stream.value.id < s.ledger.streams && s.setup.stream.value.id !in s.ledger.stopped)
  {
    RunKeepsOwned(config, seeded, steps);
    var s := Run(config, seeded, steps);
    hide Run;
    if !s.worker.Exited? && s.setup.pipeline.Some? {
      var d := s.setup.pipeline.value.model;
      InstalledIsLive(s, Detector(d));
      if d in s.ledger.released {
        var i :| 0 <= i < |s.ledger.released| && s.ledger.released[i] == d;
        CountAt(Is(d), s.ledger.released, i);
      }
    }
    if !s.worker.Exited? && s.setup.stream.Some? {
      var f := s.setup.stream.value.id;
      InstalledIsLive(s, Feed(f));
      if f in s.ledger.stopped {
        var i :| 0 <= i < |s.ledger.stopped| && s.ledger.stopped[i] == f;
        CountAt(Is(f), s.ledger.stopped, i);
      }
    }
  }

  // ---- nothing is kept after the end --------------------------------------------------------------------

  /** The numbers below `n`, counted in `s`. */
  function CountBelow(n: nat, s: seq<nat>): nat {
    if n == 0 then 0 else CountBelow(n - 1, s) + Count(Is(n - 1), s)
  }

  lemma {:induction false} CountBelowAppend(n: nat, s: seq<nat>, x: nat)
    ensures CountBelow(n, s + [x]) == CountBelow(n, s) + One(x < n)
  {
    if n > 0 {
      CountBelowAppend(n - 1, s, x);
      CountAppend(Is(n - 1), s, x);
    }
  }

  lemma {:induction false} CountBelowEmpty(n: nat)
    ensures CountBelow(n, []) == 0
  {
    if n > 0 {
      CountBelowEmpty(n - 1);
    }
  }

  lemma {:induction false} CountBelowAll(n: nat, s: seq<nat>)
    requires forall i | 0 <= i < |s| :: s[i] < n
    ensures CountBelow(n, s) == |s|
  {
    if s == [] {
      CountBelowEmpty(n);
    } else {
      CountBelowAll(n, s[..|s| - 1]);
      CountBelowAppend(n, s[..|s| - 1], s[|s| - 1]);
      assert s == s[..|s| - 1] + [s[|s| - 1]];
    }
  }

  lemma {:induction false} CountBelowOnes(n: nat, s: seq<nat>)
    requires forall d: nat | d < n :: Count(Is(d), s) == 1
    ensures CountBelow(n, s) == n
  {
    if n > 0 {
      CountBelowOnes(n - 1, s);
    }
  }

  /** Each number below `n` occurs once in `s`, and no other does: `s` has `n` elements. */
  lemma OnceEach(n: nat, s: seq<nat>)
    requires forall d: nat :: Count(Is(d), s) == One(d < n)
    ensures |s| == n
  {
    forall i | 0 <= i < |s|
      ensures s[i] < n
    {
      CountAt(Is(s[i]), s, i);
    }
    CountBelowAll(n, s);
    CountBelowOnes(n, s);
  }

  predicate AllEnded(helpers: seq<Helper>) {
    forall h | 0 <= h < |helpers| :: helpers[h].Ended?
  }

  lemma {:induction false} EndedHoldNothing(helpers: seq<Helper>, t: Token)
    requires AllEnded(helpers)
    ensures Count(HelperHas(t), helpers) == 0
  {
    if helpers != [] {
      EndedHoldNothing(helpers[..|helpers| - 1], t);
    }
  }

  lemma {:induction false} QueueHoldsNothing(items: seq<Item>, t: Token)
    requires BringsNothing(items)
    ensures Count(ItemHas(t), items) == 0
  {
    if items != [] {
      QueueHoldsNothing(items[..|items| - 1], t);
      assert ItemToken(items[|items| - 1]).None?;
    }
  }

  lemma AtTheEndAllIsGone(s: State, t: Token)
    requires Owned(s) && s.worker.Exited? && AllEnded(s.helpers)
    ensures Gone(s.ledger, t) == One(Exists(s.ledger, t))
  {
    EndedHoldNothing(s.helpers, t);
    QueueHoldsNothing(s.queue, t);
    assert s.local == [];
    assert Places(s, t) == One(Exists(s.ledger, t));
  }

  /**
   * Once the clean-up ran and all helpers ended, every stream was stopped and every detector was given back,
   * except one for each raise of the pipeline's model hook.
   */
  lemma NothingIsKept(config: Config, seeded: set<int>, steps: seq<Step>)
    requires Run(config, seeded, steps).worker.Exited? && AllEnded(Run(config, seeded, steps).helpers)
    ensures var ledger := Run(config, seeded, steps).ledger;
      && |ledger.stopped| == ledger.streams
      && |ledger.released| + ledger.hookRaises == |ledger.acquired|
      && ((forall d: nat | d < |ledger.acquired| :: d in ledger.released) <==> ledger.hookRaises == 0)
  {
    RunKeepsOwned(config, seeded, steps);
    var s := Run(config, seeded, steps);
    hide Run;
    forall f: nat
      ensures Count(Is(f), s.ledger.stopped) == One(f < s.ledger.streams)
    {
      AtTheEndAllIsGone(s, Feed(f));
    }
    OnceEach(s.ledger.streams, s.ledger.stopped);
    LedgerIsClosed(s);
  }

  lemma LedgerIsClosed(s: State)
    requires Owned(s) && s.worker.Exited? && AllEnded(s.helpers)
    ensures |s.ledger.released| + s.ledger.hookRaises == |s.ledger.acquired|
    ensures (forall d: nat | d < |s.ledger.acquired| :: d in s.ledger.released) <==> s.ledger.hookRaises == 0
  {
    var released, lost, n := s.ledger.released, s.ledger.lost, |s.ledger.acquired|;
    assert |lost| == s.ledger.hookRaises;
    forall d: nat
      ensures Count(Is(d), released) + Count(Is(d), lost) == One(d < n)
    {
      AtTheEndAllIsGone(s, Detector(d));
    }
    hide *;
    LedgerCounts(released, lost, n);
  }

  lemma LedgerCounts(released: seq<nat>, lost: seq<nat>, n: nat)
    requires forall d: nat :: Count(Is(d), released) + Count(Is(d), lost) == One(d < n)
    ensures |released| + |lost| == n
    ensures (forall d: nat | d < n :: d in released) <==> lost == []
  {
    forall d: nat
      ensures Count(Is(d), released + lost) == One(d < n)
    {
      CountConcat(Is(d), released, lost);
    }
    OnceEach(n, released + lost);
    if lost != [] {
      var d := lost[0];
      CountAt(Is(d), lost, 0);
      if d in released {
        var i :| 0 <= i < |released| && released[i] == d;
        CountAt(Is(d), released, i);
      }
      assert d < n && d !in released;
    } else {
      forall d: nat | d < n
        ensures d in released
      {
        var i := CountSome(Is(d), released);
      }
    }
  }
}
