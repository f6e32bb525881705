/**
 * The camera worker's fields, grouped as in the protocol, and the critical sections and thread actions that change
 * them. Each of these methods is one step of the protocol, proved to do to the fields what `WorkerProtocol.Next` says
 * and to keep the invariants of `WorkerOwnership` and `WorkerConvergence`; `Update`, `ApplySettings` and `ApplyQueued`
 * put them together as the code does, for a thread that no other one disturbs.
 */
module CameraWorker {
  import opened Options
  import opened WP = WorkerProtocol
  import WorkerConvergence
  import WorkerOwnership
  import P = WorkerProtocol

  ghost predicate Sound(s: State) {
    WorkerOwnership.Owned(s) && WorkerConvergence.Inv(s)
  }

  lemma NextIsSound(s: State, step: Step)
    requires Sound(s)
    ensures Sound(Next(s, step))
  {
    WorkerOwnership.NextKeepsOwned(s, step);
    WorkerConvergence.NextKeepsInv(s, step);
    hide *;
  }

  function Drop(item: Item): seq<Retired> {
    if item.Settings? then [Retired(item.change.gen, Dropped)] else []
  }

  lemma TakeOneMore(items: seq<Item>, n: nat)
    requires n < |items|
    ensures DetectorsOf(items[..n + 1]) == DetectorsOf(items[..n]) + Opt(ItemDetector(items[n]))
    ensures StreamsOf(items[..n + 1]) == StreamsOf(items[..n]) + Opt(ItemStream(items[n]))
    ensures DropsOf(items[..n + 1]) == DropsOf(items[..n]) + Drop(items[n])
  {
    assert items[..n + 1][..n] == items[..n];
  }

  lemma NothingToDrop()
    ensures DetectorsOf([]) == [] && StreamsOf([]) == [] && DropsOf([]) == []
  {
  }

  lemma SameGiveBack(s: State, t: State)
    requires t.setup == s.setup && t.ledger == s.ledger
    ensures GiveBack(t).ledger == GiveBack(s).ledger
  {
  }

  /** The clean-up, put together from its parts. */
  lemma CleanedUpParts(s: State, t: State)
    requires t == s.(stopping := true, worker := Exited, queue := [], gens := t.gens, ledger := t.ledger)
    requires t.gens == s.gens.(retired := s.gens.retired + DropsOf(s.queue))
    requires var g := GiveBack(s).ledger;
      t.ledger == g.(released := g.released + DetectorsOf(s.queue),
                     stopped := g.stopped + Opt(InstalledStream(s)) + StreamsOf(s.queue))
    ensures t == CleanedUp(s)
  {
  }

  // ---- one thread undisturbed ----------------------------------------------------------------------------

  lemma NoSteps(s: State)
    ensures After(s, []) == s
  {
  }

  lemma TakeHands(s: State)
    requires Enabled(s, TakeQueue)
    ensures var t := Next(s, TakeQueue);
      t.local == s.queue && t.queue == [] && t.worker.Running?
  {
  }

  /** What the worker thread's step leaves in its hands and in the queues. */
  predicate Hands(s: State, t: State) {
    t.local == s.local && t.queue == s.queue
  }

  lemma HeadHands(s: State)
    requires Enabled(s, ApplyHead)
    ensures var t := Next(s, ApplyHead);
      t.local == s.local[1..] && t.queue == s.queue && (t.worker.Running? || t.worker.Checked?)
  {
  }

  lemma LoadFirstHands(s: State)
    requires Enabled(s, SpawnLoad)
    ensures Hands(s, Next(s, SpawnLoad)) && Next(s, SpawnLoad).worker.Running?
  {
  }

  lemma RebuildHands(s: State)
    requires Enabled(s, ReadIdentity)
    ensures var t := Next(s, ReadIdentity);
      Hands(s, t) && t.worker.Building? && t.worker.change == s.worker.change && s.worker.change.detector.Some?
  {
  }

  lemma FailureHands(s: State, step: Step)
    requires Enabled(s, step) && (step.BuildFailed? || step.ApplyFailed?)
    ensures Hands(s, Next(s, step)) && Next(s, step).worker.Running?
  {
  }

  lemma BuiltHands(s: State)
    requires Enabled(s, BuildDone)
    ensures var t := Next(s, BuildDone);
      Hands(s, t) && (t.worker.Running? || t.worker.StartingStream?)
  {
  }

  lemma SpawnHands(s: State)
    requires Enabled(s, SpawnStream)
    ensures Hands(s, Next(s, SpawnStream)) && Next(s, SpawnStream).worker.Running?
  {
  }

  lemma ReconfiguredHands(s: State, hookRaises: bool)
    requires Enabled(s, ApplyDone(hookRaises))
    ensures Hands(s, Next(s, ApplyDone(hookRaises))) && Next(s, ApplyDone(hookRaises)).worker.Running?
  {
  }

  lemma EnterCalls(s: State, config: Config)
    requires s.caller.NoCall?
    ensures var t := Next(s, UpdateEnter(config));
      && t.config == s.config && t.stopping == s.stopping
      && (t.caller == Entering(config) || (t.caller.SettingsDue? && s.config == config))
  {
  }

  lemma ApplyCalls(s: State)
    requires s.caller.Entering?
    ensures var t := Next(s, UpdateApply);
      && (!s.stopping ==> t.config == s.caller.config) && t.stopping == s.stopping
      && (t.caller.NoCall? || t.caller.StreamDue? || t.caller.SettingsDue?)
  {
  }

  lemma StreamCalls(s: State)
    requires s.caller.StreamDue?
    ensures var t := Next(s, UpdateSpawnStream);
      t.config == s.config && t.stopping == s.stopping && (t.caller.NoCall? || t.caller.SettingsDue?)
  {
  }

  lemma RequestCalls(s: State, parses: bool)
    requires s.caller.SettingsDue?
    ensures var t := Next(s, UpdateRequest(parses));
      t.config == s.config && t.stopping == s.stopping && (t.caller.NoCall? || t.caller.LoadDue?)
  {
  }

  lemma LoadCalls(s: State)
    requires s.caller.LoadDue?
    ensures var t := Next(s, UpdateSpawnLoad);
      t.config == s.config && t.stopping == s.stopping && t.caller.NoCall?
  {
  }

  class Worker {
    var config: Config
    var queue: seq<Item>
    var stopping: bool
    var gens: Gens
    var versions: Versions
    var setup: Setup
    var caller: Caller
    var thread: WP.Worker
    var taken: seq<Item>
    var helpers: seq<Helper>
    var ledger: Ledger

    function Value(): State
      reads this
    {
      State(config, queue, stopping, gens, versions, setup, caller, thread, taken, helpers, ledger)
    }

    constructor (config: Config, reported: set<int>)
      ensures Value() == NewWorker(config, reported) && Sound(Value())
    {
      this.config, queue, stopping := config, [], false;
      gens, versions, setup := Gens(0, 0, 0, [], [], []), Versions({}, reported, reported, []), NewSetup;
      caller, thread, taken, helpers, ledger := NoCall, NotStarted, [], [], Ledger([], [], [], 0, 0, []);
      new;
      WorkerConvergence.NewWorkerIsSound(config, reported);
      assert Value() == Run(config, reported, []);
      WorkerOwnership.RunKeepsOwned(config, reported, []);
    }

    // ---- shared parts -------------------------------------------------------------------------------------

    method Retire(gen: nat, fate: Fate)
      modifies this`gens
      ensures gens == P.Retire(old(Value()), gen, fate).gens
    {
      gens := gens.(retired := gens.retired + [Retired(gen, fate)]);
    }

    method Release(detector: Option<nat>)
      modifies this`ledger
      ensures ledger == P.Release(old(Value()), detector).ledger
    {
      if detector.Some? {
        ledger := ledger.(released := ledger.released + [detector.value]);
      } else {
        assert ledger.released + [] == ledger.released;
      }
    }

    method StopStream(id: nat)
      modifies this`ledger
      ensures ledger == P.StopStream(old(Value()), id).ledger
    {
      ledger := ledger.(stopped := ledger.stopped + [id]);
    }

    method RecordRejection(version: int, loadError: bool)
      modifies this`versions
      ensures versions == VersionRejected(old(versions), version, loadError)
    {
      if version !in versions.rejected {
        versions := versions.(sent := versions.sent + [version]);
      }
      versions := versions.(rejected := versions.rejected + {version});
      if loadError {
        versions := versions.(loadFailed := versions.loadFailed + {version});
      }
    }

    /** One config_rejected event per version; a superseded change is not reported. */
    method RejectVersion(config: Config, gen: Option<nat>, loadError: bool)
      modifies this`versions, this`gens
      ensures Value() == P.Reject(old(Value()), config, gen, loadError)
    {
      hide VersionRejected;
      if stopping || (gen.Some? && gen.value != gens.settings) {
        if gen.Some? {
          Retire(gen.value, Dropped);
        }
        return;
      }
      RecordRejection(config.settings.version, loadError);
      if gen.Some? {
        gens := gens.(settled := gen.value);
        Retire(gen.value, Rejected);
      }
    }

    // ---- the caller's thread ------------------------------------------------------------------------------

    method Start()
      requires Sound(Value())
      modifies this
      ensures Sound(Value()) && Value() == Next(old(Value()), WP.Start)
    {
      hide Sound;
      NextIsSound(Value(), WP.Start);
      if !thread.NotStarted? || stopping || !caller.NoCall? {
        return;
      }
      gens := gens.(settings := gens.settings + 1, configs := gens.configs + [config]);
      thread := Preparing(|helpers|);
      helpers := helpers + [Load(Change(gens.settings, config, false, None), Starting)];
    }

    method Stop()
      requires Sound(Value())
      modifies this
      ensures Sound(Value()) && Value() == Next(old(Value()), WP.Stop)
    {
      hide Sound;
      NextIsSound(Value(), WP.Stop);
      stopping := true;
    }

    /** Takes a new config, or asks again for the version whose model did not load. */
    method EnterUpdate(config: Config)
      requires Sound(Value()) && Enabled(Value(), UpdateEnter(config))
      modifies this
      ensures Sound(Value()) && Value() == Next(old(Value()), UpdateEnter(config))
    {
      hide Sound;
      NextIsSound(Value(), UpdateEnter(config));
      if RetriesLoad(Value(), config) {
        versions := versions.(loadFailed := versions.loadFailed - {config.settings.version});
        caller := SettingsDue;
      } else {
        caller := Entering(config);
      }
    }

    /** The locked part of update(). */
    method ApplyUpdate()
      requires Sound(Value()) && Enabled(Value(), UpdateApply)
      modifies this
      ensures Sound(Value()) && Value() == Next(old(Value()), UpdateApply)
    {
      hide Sound;
      NextIsSound(Value(), UpdateApply);
      var newest, last := caller.config, config;
      if stopping || newest == last {
        caller := NoCall;
        return;
      }
      config := newest;
      var needs := newest.settings != last.settings;
      caller := if needs then SettingsDue else NoCall;
      if newest.stream != last.stream && setup.streamWanted {
        gens := gens.(stream := gens.stream + 1, sources := gens.sources + [newest.stream]);
        caller := StreamDue(gens.stream, needs);
      }
      if newest.identity != last.identity {
        queue := queue + [Identity];
      }
    }

    method SpawnUpdatedStream()
      requires Sound(Value()) && Enabled(Value(), UpdateSpawnStream)
      modifies this
      ensures Sound(Value()) && Value() == Next(old(Value()), UpdateSpawnStream)
    {
      hide Sound;
      NextIsSound(Value(), UpdateSpawnStream);
      var gen := caller.gen;
      caller := if caller.settingsToo then SettingsDue else NoCall;
      if !stopping {
        helpers := helpers + [StreamUp(gen, Trying)];
      }
    }

    /** _request_settings: settings that do not parse are rejected at once and supersede nothing. */
    method RequestSettings(parses: bool)
      requires Sound(Value()) && Enabled(Value(), UpdateRequest(parses))
      modifies this
      ensures Sound(Value()) && Value() == Next(old(Value()), UpdateRequest(parses))
    {
      hide Sound;
      NextIsSound(Value(), UpdateRequest(parses));
      caller := NoCall;
      if !parses {
        RejectVersion(config, None, false);
        return;
      }
      gens := gens.(settings := gens.settings + 1, configs := gens.configs + [config]);
      var change := Change(gens.settings, config, true, None);
      if NeedsDetector(Value(), change) {
        caller := LoadDue(change);
      } else {
        queue := queue + [Settings(change)];
      }
    }

    method SpawnRequestedLoad()
      requires Sound(Value()) && Enabled(Value(), UpdateSpawnLoad)
      modifies this
      ensures Sound(Value()) && Value() == Next(old(Value()), UpdateSpawnLoad)
    {
      hide Sound;
      NextIsSound(Value(), UpdateSpawnLoad);
      var change := caller.change;
      caller := NoCall;
      if stopping {
        Retire(change.gen, Dropped);
      } else {
        helpers := helpers + [Load(change, Starting)];
      }
    }

    /** update() undisturbed: the newest config is the one given, and what it asks for is on its way. */
    method Update(newest: Config, parses: bool) returns (ghost steps: seq<Step>)
      requires Sound(Value()) && caller.NoCall?
      modifies this
      ensures Sound(Value()) && caller.NoCall? && (!stopping ==> config == newest)
      ensures Value() == After(old(Value()), steps)
    {
      hide Sound;
      hide Next;
      hide After;
      ghost var start := Value();
      NoSteps(start);
      EnterCalls(start, newest);
      EnterUpdate(newest);
      AfterStep(start, [], UpdateEnter(newest));
      steps := [] + [UpdateEnter(newest)];
      if caller.Entering? {
        ApplyCalls(Value());
        ApplyUpdate();
        AfterStep(start, steps, UpdateApply);
        steps := steps + [UpdateApply];
      }
      if caller.StreamDue? {
        StreamCalls(Value());
        SpawnUpdatedStream();
        AfterStep(start, steps, UpdateSpawnStream);
        steps := steps + [UpdateSpawnStream];
      }
      if caller.SettingsDue? {
        RequestCalls(Value(), parses);
        RequestSettings(parses);
        AfterStep(start, steps, UpdateRequest(parses));
        steps := steps + [UpdateRequest(parses)];
      }
      if caller.LoadDue? {
        LoadCalls(Value());
        SpawnRequestedLoad();
        AfterStep(start, steps, UpdateSpawnLoad);
        steps := steps + [UpdateSpawnLoad];
      }
    }

    // ---- helper threads -----------------------------------------------------------------------------------

    method Parse(h: nat, ok: bool)
      requires Sound(Value()) && Enabled(Value(), ParseFirst(h, ok))
      modifies this
      ensures Sound(Value()) && Value() == Next(old(Value()), ParseFirst(h, ok))
    {
      hide Sound;
      NextIsSound(Value(), ParseFirst(h, ok));
      var change := helpers[h].change;
      if ok {
        helpers := helpers[h := Load(change.(parsed := true), Starting)];
      } else {
        helpers := helpers[h := Ended];
        RejectVersion(change.config, Some(change.gen), false);
      }
    }

    /** A change superseded before its load starts is dropped. */
    method CheckBeforeLoad(h: nat)
      requires Sound(Value()) && Enabled(Value(), CheckCurrent(h))
      modifies this
      ensures Sound(Value()) && Value() == Next(old(Value()), CheckCurrent(h))
    {
      hide Sound;
      NextIsSound(Value(), CheckCurrent(h));
      var change := helpers[h].change;
      if !stopping && change.gen == gens.settings {
        helpers := helpers[h := Load(change, Loading)];
      } else {
        helpers := helpers[h := Ended];
        Retire(change.gen, Dropped);
      }
    }

    /** The pool returned a detector, or the model did not load. */
    method EndAcquire(h: nat, ok: bool)
      requires Sound(Value()) && Enabled(Value(), AcquireDone(h, ok))
      modifies this
      ensures Sound(Value()) && Value() == Next(old(Value()), AcquireDone(h, ok))
    {
      hide Sound;
      NextIsSound(Value(), AcquireDone(h, ok));
      var change := helpers[h].change;
      if ok {
        helpers := helpers[h := Load(change.(detector := Some(|ledger.acquired|)), Loaded)];
        ledger := ledger.(acquired := ledger.acquired + [ModelKey(change.config)]);
      } else {
        helpers := helpers[h := Load(change, LoadError)];
      }
    }

    /** Queues the change with its detector, or gives the detector back. */
    method QueueOrRelease(h: nat)
      requires Sound(Value()) && Enabled(Value(), QueueLoaded(h))
      modifies this
      ensures Sound(Value()) && Value() == Next(old(Value()), QueueLoaded(h))
    {
      hide Sound;
      NextIsSound(Value(), QueueLoaded(h));
      var change := helpers[h].change;
      helpers := helpers[h := Ended];
      if !stopping && change.gen == gens.settings {
        queue := queue + [Settings(change)];
      } else {
        Release(change.detector);
        Retire(change.gen, Dropped);
      }
    }

    method RejectFailedLoad(h: nat)
      requires Sound(Value()) && Enabled(Value(), RejectLoad(h))
      modifies this
      ensures Sound(Value()) && Value() == Next(old(Value()), RejectLoad(h))
    {
      hide Sound;
      NextIsSound(Value(), RejectLoad(h));
      var change := helpers[h].change;
      helpers := helpers[h := Ended];
      RejectVersion(change.config, Some(change.gen), true);
    }

    /** One attempt of _start_stream; a stream whose start failed is stopped. */
    method AttemptStream(h: nat, attempt: StreamAttempt)
      requires Sound(Value()) && Enabled(Value(), TryStream(h, attempt))
      modifies this
      ensures Sound(Value()) && Value() == Next(old(Value()), TryStream(h, attempt))
    {
      hide Sound;
      NextIsSound(Value(), TryStream(h, attempt));
      var gen, id := helpers[h].gen, ledger.streams;
      if attempt.FactoryFailed? {
        helpers := helpers[h := StreamUp(gen, Retrying)];
        return;
      }
      ledger := ledger.(streams := ledger.streams + 1);
      if attempt.StreamOk? {
        helpers := helpers[h := StreamUp(gen, Up(id))];
      } else {
        helpers := helpers[h := StreamUp(gen, Retrying)];
        StopStream(id);
      }
    }

    method RetryOrEnd(h: nat)
      requires Sound(Value()) && Enabled(Value(), RetryStream(h))
      modifies this
      ensures Sound(Value()) && Value() == Next(old(Value()), RetryStream(h))
    {
      hide Sound;
      NextIsSound(Value(), RetryStream(h));
      var gen := helpers[h].gen;
      helpers := helpers[h := if !stopping && gen == gens.stream then StreamUp(gen, Trying) else Ended];
    }

    /** Queues the stream, or stops it. */
    method QueueOrStop(h: nat)
      requires Sound(Value()) && Enabled(Value(), QueueStream(h))
      modifies this
      ensures Sound(Value()) && Value() == Next(old(Value()), QueueStream(h))
    {
      hide Sound;
      NextIsSound(Value(), QueueStream(h));
      var gen, id := helpers[h].gen, helpers[h].phaseS.id;
      helpers := helpers[h := Ended];
      if !stopping && gen == gens.stream {
        queue := queue + [Item.Stream(gen, id)];
      } else {
        StopStream(id);
      }
    }

    // ---- the worker thread --------------------------------------------------------------------------------

    method EndFirstPrepare()
      requires Sound(Value()) && Enabled(Value(), FirstPrepared)
      modifies this
      ensures Sound(Value()) && Value() == Next(old(Value()), FirstPrepared)
    {
      hide Sound;
      NextIsSound(Value(), FirstPrepared);
      thread := Running;
    }

    method TakeQueued()
      requires Sound(Value()) && Enabled(Value(), TakeQueue)
      modifies this
      ensures Sound(Value()) && Value() == Next(old(Value()), TakeQueue)
    {
      hide Sound;
      NextIsSound(Value(), TakeQueue);
      taken, queue := queue, [];
    }

    method ApplyIdentity()
      modifies this`setup
      ensures Value() == IdentityApplied(old(Value()))
    {
      if setup.pipeline.Some? {
        setup := setup.(pipeline := Some(setup.pipeline.value.(identity := config.identity)));
      }
    }

    /** Installs the stream and stops the old one, or stops a stream that is no longer the newest. */
    method ApplyStream(gen: nat, id: nat)
      modifies this`setup, this`ledger
      ensures Value() == StreamApplied(old(Value()), gen, id)
    {
      if stopping || gen != gens.stream {
        StopStream(id);
        return;
      }
      var last := setup.stream;
      setup := setup.(stream := Some(Installed(id, gen)));
      if last.Some? {
        StopStream(last.value.id);
      }
    }

    /** The check of _apply_settings: a change that is no longer the newest gives its detector back. */
    method CheckBeforeInstall(change: Change)
      modifies this`thread, this`gens, this`ledger
      ensures Value() == ChangeTaken(old(Value()), change)
    {
      if !stopping && change.gen == gens.settings {
        thread := Checked(change);
      } else {
        Release(change.detector);
        Retire(change.gen, Dropped);
      }
    }

    /** One turn of the loop in _apply_queued. */
    method ApplyNext()
      requires Sound(Value()) && Enabled(Value(), ApplyHead)
      modifies this
      ensures Sound(Value()) && Value() == Next(old(Value()), ApplyHead)
    {
      hide Sound;
      NextIsSound(Value(), ApplyHead);
      hide StreamApplied;
      hide IdentityApplied;
      hide ChangeTaken;
      var item := taken[0];
      taken := taken[1..];
      match item
      case Identity => ApplyIdentity();
      case Stream(gen, id) => ApplyStream(gen, id);
      case Settings(change) => CheckBeforeInstall(change);
    }

    /** The change needs a detector after all: it is loaded first and comes back with it. */
    method LoadFirst()
      requires Sound(Value()) && Enabled(Value(), SpawnLoad)
      modifies this
      ensures Sound(Value()) && Value() == Next(old(Value()), SpawnLoad)
    {
      hide Sound;
      NextIsSound(Value(), SpawnLoad);
      var change := thread.change;
      thread := Running;
      if stopping {
        Retire(change.gen, Dropped);
      } else {
        helpers := helpers + [Load(change, Starting)];
      }
    }

    method BeginRebuild()
      requires Sound(Value()) && Enabled(Value(), ReadIdentity)
      modifies this
      ensures Sound(Value()) && Value() == Next(old(Value()), ReadIdentity)
    {
      hide Sound;
      NextIsSound(Value(), ReadIdentity);
      thread := Building(thread.change, config.identity);
    }

    method GiveUp(change: Change)
      modifies this`thread, this`versions, this`gens, this`ledger
      ensures Value() == InstallFailed(old(Value()), change)
    {
      thread := Running;
      Release(change.detector);
      RejectVersion(change.config, Some(change.gen), false);
    }

    /** The new pipeline could not be created. */
    method FailRebuild()
      requires Sound(Value()) && Enabled(Value(), BuildFailed)
      modifies this
      ensures Sound(Value()) && Value() == Next(old(Value()), BuildFailed)
    {
      hide Sound;
      NextIsSound(Value(), BuildFailed);
      hide InstallFailed;
      GiveUp(thread.change);
    }

    /** Gives back the worker's own detector; another one the pipeline runs is lost with the pipeline. */
    method GiveBackOwn()
      modifies this`ledger
      ensures Value() == GiveBack(old(Value()))
    {
      if setup.pipeline.Some? && setup.detector != Some(setup.pipeline.value.model) {
        ledger := ledger.(lost := ledger.lost + [setup.pipeline.value.model]);
      }
      Release(setup.detector);
    }

    /** _applied. */
    method Applied(change: Change)
      modifies this`gens, this`setup
      ensures Value() == MarkApplied(old(Value()), change)
    {
      if change.gen > gens.settled {
        gens := gens.(settled := change.gen);
      }
      setup := setup.(key := Some(ModelKey(change.config)), applied := Some(change.config));
      Retire(change.gen, Fate.Applied);
    }

    method RequestFirstStream()
      modifies this`setup, this`gens, this`thread
      ensures Value() == WantStream(old(Value()))
    {
      if !setup.streamWanted {
        setup := setup.(streamWanted := true);
        gens := gens.(stream := gens.stream + 1, sources := gens.sources + [config.stream]);
        thread := StartingStream(gens.stream);
      }
    }

    /** _rebuild: the new pipeline replaces the old one. */
    method EndRebuild()
      requires Sound(Value()) && Enabled(Value(), BuildDone)
      modifies this
      ensures Sound(Value()) && Value() == Next(old(Value()), BuildDone)
    {
      hide Sound;
      NextIsSound(Value(), BuildDone);
      hide GiveBack;
      hide MarkApplied;
      hide WantStream;
      var change, identity := thread.change, thread.identity;
      GiveBackOwn();
      thread := Running;
      setup := setup.(pipeline := Some(Pipeline(change.config.settings.useCase, identity, change.detector.value)),
                      detector := change.detector);
      Applied(change);
      RequestFirstStream();
    }

    method SpawnFirstStream()
      requires Sound(Value()) && Enabled(Value(), SpawnStream)
      modifies this
      ensures Sound(Value()) && Value() == Next(old(Value()), SpawnStream)
    {
      hide Sound;
      NextIsSound(Value(), SpawnStream);
      var gen := thread.gen;
      thread := Running;
      if !stopping {
        helpers := helpers + [StreamUp(gen, Trying)];
      }
    }

    /** The pipeline refused the settings and went back to the ones before. */
    method FailReconfigure()
      requires Sound(Value()) && Enabled(Value(), ApplyFailed)
      modifies this
      ensures Sound(Value()) && Value() == Next(old(Value()), ApplyFailed)
    {
      hide Sound;
      NextIsSound(Value(), ApplyFailed);
      hide InstallFailed;
      GiveUp(thread.change);
    }

    method RaiseHook(change: Change)
      requires setup.pipeline.Some? && change.detector.Some?
      modifies this`thread, this`setup, this`gens, this`ledger
      ensures Value() == HookRaised(old(Value()), change)
    {
      var previous := setup.pipeline.value.model;
      if setup.detector != Some(previous) {
        ledger := ledger.(lost := ledger.lost + [previous]);
      }
      setup := setup.(pipeline := Some(setup.pipeline.value.(model := change.detector.value)));
      ledger := ledger.(hookRaises := ledger.hookRaises + 1);
      thread := Running;
      Retire(change.gen, Crashed);
    }

    /** set_model returns the detector the pipeline ran, which is given back. */
    method SetModel(change: Change)
      requires setup.pipeline.Some? && change.detector.Some?
      modifies this`thread, this`setup, this`gens, this`ledger
      ensures Value() == ModelSwapped(old(Value()), change)
    {
      hide MarkApplied;
      var previous := setup.pipeline.value.model;
      if setup.detector.Some? && setup.detector.value != previous {
        ledger := ledger.(lost := ledger.lost + [setup.detector.value]);
      }
      setup := setup.(pipeline := Some(setup.pipeline.value.(model := change.detector.value)),
                      detector := change.detector);
      thread := Running;
      Release(Some(previous));
      Applied(change);
    }

    /** _reconfigure, once the pipeline took the settings. */
    method EndReconfigure(hookRaises: bool)
      requires Sound(Value()) && Enabled(Value(), ApplyDone(hookRaises))
      modifies this
      ensures Sound(Value()) && Value() == Next(old(Value()), ApplyDone(hookRaises))
    {
      hide Sound;
      NextIsSound(Value(), ApplyDone(hookRaises));
      hide MarkApplied;
      hide HookRaised;
      hide ModelSwapped;
      var change := thread.change;
      if change.detector.None? {
        thread := Running;
        Applied(change);
      } else if hookRaises {
        RaiseHook(change);
      } else {
        SetModel(change);
      }
    }

    /** _rebuild undisturbed, with the first stream when the pipeline is the first. */
    method Rebuild(fails: bool) returns (ghost steps: seq<Step>)
      requires Sound(Value()) && Enabled(Value(), ReadIdentity)
      modifies this
      ensures Sound(Value()) && thread.Running? && Hands(old(Value()), Value())
      ensures Value() == After(old(Value()), steps)
    {
      hide Sound;
      hide Next;
      hide After;
      ghost var start := Value();
      RebuildHands(start);
      BeginRebuild();
      steps := [] + [ReadIdentity];
      assert After(start, []) == start by {
        NoSteps(start);
      }
      AfterStep(start, [], ReadIdentity);
      ghost var built := Value();
      if fails {
        FailureHands(built, BuildFailed);
        FailRebuild();
        AfterStep(start, steps, BuildFailed);
        steps := steps + [BuildFailed];
        return;
      }
      BuiltHands(built);
      EndRebuild();
      AfterStep(start, steps, BuildDone);
      steps := steps + [BuildDone];
      if thread.StartingStream? {
        SpawnHands(Value());
        SpawnFirstStream();
        AfterStep(start, steps, SpawnStream);
        steps := steps + [SpawnStream];
      }
    }

    /** The rest of _apply_settings undisturbed, once the change was found to be the newest. */
    method ApplySettings(fails: bool, hookRaises: bool) returns (ghost steps: seq<Step>)
      requires Sound(Value()) && thread.Checked?
      modifies this
      ensures Sound(Value()) && thread.Running? && Hands(old(Value()), Value())
      ensures Value() == After(old(Value()), steps)
    {
      hide Sound;
      hide Next;
      hide After;
      ghost var start := Value();
      NoSteps(start);
      if MustLoadFirst(Value(), thread.change) {
        LoadFirstHands(start);
        LoadFirst();
        AfterStep(start, [], SpawnLoad);
        steps := [] + [SpawnLoad];
      } else if Rebuilds(Value(), thread.change) {
        steps := Rebuild(fails);
      } else if fails {
        FailureHands(start, ApplyFailed);
        FailReconfigure();
        AfterStep(start, [], ApplyFailed);
        steps := [] + [ApplyFailed];
      } else {
        ReconfiguredHands(start, hookRaises);
        EndReconfigure(hookRaises);
        AfterStep(start, [], ApplyDone(hookRaises));
        steps := [] + [ApplyDone(hookRaises)];
      }
    }

    /** _apply_queued undisturbed: whatever was queued is dealt with, in order, however each install turns out. */
    method ApplyQueued(fails: nat -> bool, hookRaises: nat -> bool) returns (ghost steps: seq<Step>)
      requires Sound(Value()) && thread.Running? && taken == []
      modifies this
      ensures Sound(Value()) && thread.Running? && taken == [] && queue == []
      ensures Value() == After(old(Value()), steps)
    {
      hide Sound;
      hide Next;
      hide After;
      ghost var start := Value();
      NoSteps(start);
      TakeHands(start);
      TakeQueued();
      AfterStep(start, [], TakeQueue);
      steps := [] + [TakeQueue];
      var n := 0;
      while taken != []
        invariant Sound(Value()) && thread.Running? && queue == [] && Value() == After(start, steps)
        decreases |taken|
      {
        HeadHands(Value());
        ApplyNext();
        AfterStep(start, steps, ApplyHead);
        steps := steps + [ApplyHead];
        if thread.Checked? {
          ghost var before := Value();
          ghost var more := ApplySettings(fails(n), hookRaises(n));
          AfterConcat(start, steps, more);
          steps := steps + more;
        }
        n := n + 1;
      }
    }

    method DropItem(item: Item)
      modifies this`ledger, this`gens
      ensures gens.retired == old(gens).retired + Drop(item) && gens == old(gens).(retired := gens.retired)
      ensures ledger.released == old(ledger).released + Opt(ItemDetector(item))
      ensures ledger.stopped == old(ledger).stopped + Opt(ItemStream(item))
      ensures ledger == old(ledger).(released := ledger.released, stopped := ledger.stopped)
    {
      match item
      case Settings(change) =>
        Release(change.detector);
        Retire(change.gen, Dropped);
      case Stream(_, id) => StopStream(id);
      case Identity =>
    }

    /** The loop over what was still queued: it gives detectors back and stops streams. */
    method DropQueued(items: seq<Item>)
      modifies this`ledger, this`gens
      ensures gens == old(gens).(retired := old(gens).retired + DropsOf(items))
      ensures ledger == old(ledger).(released := old(ledger).released + DetectorsOf(items),
                                     stopped := old(ledger).stopped + StreamsOf(items))
    {
      NothingToDrop();
      assert items[..0] == [];
      hide DropsOf;
      hide DetectorsOf;
      hide StreamsOf;
      for n := 0 to |items|
        invariant gens.retired == old(gens).retired + DropsOf(items[..n])
        invariant gens == old(gens).(retired := gens.retired)
        invariant ledger.released == old(ledger).released + DetectorsOf(items[..n])
        invariant ledger.stopped == old(ledger).stopped + StreamsOf(items[..n])
        invariant ledger == old(ledger).(released := ledger.released, stopped := ledger.stopped)
      {
        DropItem(items[n]);
        TakeOneMore(items, n);
        hide *;
      }
      assert items[..|items|] == items;
    }

    method CleanUp()
      modifies this
      ensures Value() == CleanedUp(old(Value()))
    {
      hide GiveBack;
      hide DetectorsOf;
      hide StreamsOf;
      hide DropsOf;
      ghost var before := Value();
      stopping, thread := true, Exited;
      var queued := queue;
      queue := [];
      SameGiveBack(before, Value());
      GiveBackOwn();
      if setup.stream.Some? {
        StopStream(setup.stream.value.id);
      } else {
        assert ledger.stopped + Opt(InstalledStream(before)) == ledger.stopped;
      }
      DropQueued(queued);
      CleanedUpParts(before, Value());
    }

    /** The worker thread ends. */
    method EndThread()
      requires Sound(Value()) && Enabled(Value(), Exit)
      modifies this
      ensures Sound(Value()) && Value() == Next(old(Value()), Exit)
    {
      hide Sound;
      NextIsSound(Value(), Exit);
      hide CleanedUp;
      CleanUp();
    }

    /** stop() of a worker whose thread never started. */
    method CleanUpWithoutThread()
      requires Sound(Value()) && Enabled(Value(), CleanUpUnstarted)
      modifies this
      ensures Sound(Value()) && Value() == Next(old(Value()), CleanUpUnstarted)
    {
      hide Sound;
      NextIsSound(Value(), CleanUpUnstarted);
      hide CleanedUp;
      CleanUp();
    }
  }
}
