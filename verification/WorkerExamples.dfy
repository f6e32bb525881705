/** Runs of the camera worker's protocol that show what its checks do not exclude. */
module WorkerExamples {
  import opened Options
  import opened WorkerConvergence
  import opened WorkerProtocol

  // ---- a superseded change is installed -------------------------------------------------------------------

  const FirstConfig := Config(SettingsFields(0, 1, 0, 0, 0), 0, 0)
  const SecondConfig := Config(SettingsFields(0, 2, 0, 1, 0), 0, 0)
  const Parsed := Change(1, FirstConfig, true, None)
  const Ready := Change(1, FirstConfig, true, Some(0))

  /** The worker while the first config is on its way. */
  function WithFirst(queue: seq<Item>, worker: Worker, local: seq<Item>, helper: Helper, acquired: seq<(int, int)>): State {
    State(FirstConfig, queue, false, Gens(1, 0, 0, [FirstConfig], [], []), Versions({}, {}, {}, []), NewSetup,
          NoCall, worker, local, [helper], Ledger(acquired, [], [], 0, 0, []))
  }

  /** The worker with the first config in hand while update() brings the second one. */
  function WithSecond(caller: Caller, gens: Gens, worker: Worker): State {
    State(SecondConfig, [], false, gens, Versions({}, {}, {}, []), NewSetup,
          caller, worker, [], [Ended], Ledger([(0, 0)], [], [], 0, 0, []))
  }

  const TwoAsked := Gens(2, 0, 0, [FirstConfig, SecondConfig], [], [])
  const Due := LoadDue(Change(2, SecondConfig, true, None))

  lemma Two(s: State, a: Step, b: Step)
    ensures After(s, [a, b]) == Next(Next(s, a), b)
  {
    hide Next;
    assert [a, b][..1] == [a];
    assert [a][..0] == [];
    assert After(s, [a]) == Next(After(s, []), a);
  }

  lemma {:induction false} RunIsAfter(config: Config, steps: seq<Step>)
    ensures Run(config, {}, steps) == After(NewWorker(config, {}), steps)
  {
    hide Next;
    if steps != [] {
      RunIsAfter(config, steps[..|steps| - 1]);
    }
  }

  lemma FirstIsParsed()
    ensures After(NewWorker(FirstConfig, {}), [Start, ParseFirst(0, true)]) ==
      WithFirst([], Preparing(0), [], Load(Parsed, Starting), [])
  {
    var s := NewWorker(FirstConfig, {});
    Two(s, Start, ParseFirst(0, true));
    assert Next(s, Start) == WithFirst([], Preparing(0), [], Load(Change(1, FirstConfig, false, None), Starting), []);
  }

  lemma FirstIsLoaded()
    ensures After(WithFirst([], Preparing(0), [], Load(Parsed, Starting), []), [CheckCurrent(0), AcquireDone(0, true)]) ==
      WithFirst([], Preparing(0), [], Load(Ready, Loaded), [(0, 0)])
  {
    var s := WithFirst([], Preparing(0), [], Load(Parsed, Starting), []);
    Two(s, CheckCurrent(0), AcquireDone(0, true));
    assert Next(s, CheckCurrent(0)) == WithFirst([], Preparing(0), [], Load(Parsed, Loading), []);
  }

  lemma FirstIsQueued()
    ensures After(WithFirst([], Preparing(0), [], Load(Ready, Loaded), [(0, 0)]), [QueueLoaded(0), FirstPrepared]) ==
      WithFirst([Settings(Ready)], Running, [], Ended, [(0, 0)])
  {
    var s := WithFirst([], Preparing(0), [], Load(Ready, Loaded), [(0, 0)]);
    Two(s, QueueLoaded(0), FirstPrepared);
    assert Next(s, QueueLoaded(0)) == WithFirst([Settings(Ready)], Preparing(0), [], Ended, [(0, 0)]);
  }

  lemma FirstIsChecked()
    ensures After(WithFirst([Settings(Ready)], Running, [], Ended, [(0, 0)]), [TakeQueue, ApplyHead]) ==
      WithFirst([], Checked(Ready), [], Ended, [(0, 0)])
  {
    var s := WithFirst([Settings(Ready)], Running, [], Ended, [(0, 0)]);
    Two(s, TakeQueue, ApplyHead);
    assert Next(s, TakeQueue) == WithFirst([], Running, [Settings(Ready)], Ended, [(0, 0)]);
  }

  lemma SecondComes()
    ensures After(WithFirst([], Checked(Ready), [], Ended, [(0, 0)]), [UpdateEnter(SecondConfig), UpdateApply]) ==
      WithSecond(SettingsDue, Gens(1, 0, 0, [FirstConfig], [], []), Checked(Ready))
  {
    var s := WithFirst([], Checked(Ready), [], Ended, [(0, 0)]);
    Two(s, UpdateEnter(SecondConfig), UpdateApply);
    assert Next(s, UpdateEnter(SecondConfig)) == s.(caller := Entering(SecondConfig));
  }

  lemma SecondIsAsked()
    ensures After(WithSecond(SettingsDue, Gens(1, 0, 0, [FirstConfig], [], []), Checked(Ready)),
                  [UpdateRequest(true), ReadIdentity]) ==
      WithSecond(Due, TwoAsked, Building(Ready, 0))
  {
    var s := WithSecond(SettingsDue, Gens(1, 0, 0, [FirstConfig], [], []), Checked(Ready));
    Two(s, UpdateRequest(true), ReadIdentity);
    assert Next(s, UpdateRequest(true)) == WithSecond(Due, TwoAsked, Checked(Ready));
  }

  /** The start of a run up to the check of the first config. */
  const UntilCheck := [Start, ParseFirst(0, true)] + [CheckCurrent(0), AcquireDone(0, true)]
    + [QueueLoaded(0), FirstPrepared] + [TakeQueue, ApplyHead]

  lemma UntilCheckRuns()
    ensures After(NewWorker(FirstConfig, {}), UntilCheck) == WithFirst([], Checked(Ready), [], Ended, [(0, 0)])
  {
    var s := NewWorker(FirstConfig, {});
    var a := [Start, ParseFirst(0, true)];
    var b := a + [CheckCurrent(0), AcquireDone(0, true)];
    var c := b + [QueueLoaded(0), FirstPrepared];
    hide Next;
    hide After;
    hide WithFirst;
    FirstIsParsed();
    AfterConcat(s, a, [CheckCurrent(0), AcquireDone(0, true)]);
    FirstIsLoaded();
    AfterConcat(s, b, [QueueLoaded(0), FirstPrepared]);
    FirstIsQueued();
    AfterConcat(s, c, [TakeQueue, ApplyHead]);
    FirstIsChecked();
  }

  /** On to the install of the first config, which update() supersedes after its check. */
  const UntilInstall := UntilCheck + [UpdateEnter(SecondConfig), UpdateApply] + [UpdateRequest(true), ReadIdentity]

  lemma UntilInstallRuns()
    ensures Run(FirstConfig, {}, UntilInstall) == WithSecond(Due, TwoAsked, Building(Ready, 0))
  {
    var s := NewWorker(FirstConfig, {});
    var e := UntilCheck + [UpdateEnter(SecondConfig), UpdateApply];
    hide Next;
    hide After;
    hide WithFirst;
    hide WithSecond;
    RunIsAfter(FirstConfig, UntilInstall);
    hide Run;
    UntilCheckRuns();
    AfterConcat(s, UntilCheck, [UpdateEnter(SecondConfig), UpdateApply]);
    SecondComes();
    AfterConcat(s, e, [UpdateRequest(true), ReadIdentity]);
    SecondIsAsked();
  }

  /** The check is not repeated at the install: a change superseded in between is installed. */
  lemma SupersededChangeIsInstalled()
    ensures var s := Run(FirstConfig, {}, UntilInstall + [BuildDone]);
      && s.setup.applied == Some(FirstConfig) && s.gens.retired == [Retired(1, Applied)]
      && s.gens.settings == 2 && s.config == SecondConfig
  {
    UntilInstallRuns();
    assert (UntilInstall + [BuildDone])[..|UntilInstall|] == UntilInstall;
  }

  // ---- a raising model hook is not reported ---------------------------------------------------------------

  const FirstDone := Gens(1, 1, 1, [FirstConfig], [0], [Retired(1, Applied)])
  const SecondTaken := Gens(2, 1, 1, [FirstConfig, SecondConfig], [0], [Retired(1, Applied)])
  const SecondReady := Change(2, SecondConfig, true, Some(1))

  /** The first config runs with the detector `model`. */
  function FirstRuns(model: nat, stream: Option<Installed>): Setup {
    Setup(Some(Pipeline(0, 0, model)), Some(0), Some((0, 0)), Some(FirstConfig), stream, true)
  }

  /** The worker with the first config installed, while its stream comes. */
  function Streaming(worker: Worker, local: seq<Item>, helpers: seq<Helper>, streams: nat): State {
    State(FirstConfig, [], false, FirstDone, Versions({}, {}, {}, []), FirstRuns(0, None),
          NoCall, worker, local, helpers, Ledger([(0, 0)], [], [], 0, streams, []))
  }

  /** The worker with the first config and its stream installed, while the second config comes. */
  function Changing(config: Config, queue: seq<Item>, gens: Gens, caller: Caller, worker: Worker, loads: seq<Helper>,
                    acquired: seq<(int, int)>): State {
    State(config, queue, false, gens, Versions({}, {}, {}, []), FirstRuns(0, Some(Installed(0, 1))),
          caller, worker, [], [Ended, Ended] + loads, Ledger(acquired, [], [], 0, 1, []))
  }

  lemma FirstIsInstalled()
    ensures After(WithFirst([], Checked(Ready), [], Ended, [(0, 0)]), [ReadIdentity, BuildDone]) ==
      Streaming(StartingStream(1), [], [Ended], 0)
  {
    var s := WithFirst([], Checked(Ready), [], Ended, [(0, 0)]);
    Two(s, ReadIdentity, BuildDone);
    assert Next(s, ReadIdentity) == WithFirst([], Building(Ready, 0), [], Ended, [(0, 0)]);
  }

  lemma StreamIsUp()
    ensures After(Streaming(StartingStream(1), [], [Ended], 0), [SpawnStream, TryStream(1, StreamOk)]) ==
      Streaming(Running, [], [Ended, StreamUp(1, Up(0))], 1)
  {
    var s := Streaming(StartingStream(1), [], [Ended], 0);
    Two(s, SpawnStream, TryStream(1, StreamOk));
    assert Next(s, SpawnStream) == Streaming(Running, [], [Ended, StreamUp(1, Trying)], 0);
  }

  lemma StreamIsTaken()
    ensures After(Streaming(Running, [], [Ended, StreamUp(1, Up(0))], 1), [QueueStream(1), TakeQueue]) ==
      Streaming(Running, [Item.Stream(1, 0)], [Ended, Ended], 1)
  {
    var s := Streaming(Running, [], [Ended, StreamUp(1, Up(0))], 1);
    Two(s, QueueStream(1), TakeQueue);
    assert Next(s, QueueStream(1)) == Streaming(Running, [], [Ended, Ended], 1).(queue := [Item.Stream(1, 0)]);
  }

  lemma StreamIsInstalled()
    ensures After(Streaming(Running, [Item.Stream(1, 0)], [Ended, Ended], 1), [ApplyHead, UpdateEnter(SecondConfig)]) ==
      Changing(FirstConfig, [], FirstDone, Entering(SecondConfig), Running, [], [(0, 0)])
  {
    var s := Streaming(Running, [Item.Stream(1, 0)], [Ended, Ended], 1);
    Two(s, ApplyHead, UpdateEnter(SecondConfig));
    assert Next(s, ApplyHead) == Changing(FirstConfig, [], FirstDone, NoCall, Running, [], [(0, 0)]);
  }

  lemma SecondIsRequested()
    ensures After(Changing(FirstConfig, [], FirstDone, Entering(SecondConfig), Running, [], [(0, 0)]),
                  [UpdateApply, UpdateRequest(true)]) ==
      Changing(SecondConfig, [], SecondTaken, Due, Running, [], [(0, 0)])
  {
    var s := Changing(FirstConfig, [], FirstDone, Entering(SecondConfig), Running, [], [(0, 0)]);
    Two(s, UpdateApply, UpdateRequest(true));
    assert Next(s, UpdateApply) == Changing(SecondConfig, [], FirstDone, SettingsDue, Running, [], [(0, 0)]);
  }

  lemma SecondIsLoading()
    ensures After(Changing(SecondConfig, [], SecondTaken, Due, Running, [], [(0, 0)]), [UpdateSpawnLoad, CheckCurrent(2)]) ==
      Changing(SecondConfig, [], SecondTaken, NoCall, Running, [Load(Due.change, Loading)], [(0, 0)])
  {
    var s := Changing(SecondConfig, [], SecondTaken, Due, Running, [], [(0, 0)]);
    Two(s, UpdateSpawnLoad, CheckCurrent(2));
    assert Next(s, UpdateSpawnLoad) ==
      Changing(SecondConfig, [], SecondTaken, NoCall, Running, [Load(Due.change, Starting)], [(0, 0)]);
  }

  lemma SecondIsQueued()
    ensures After(Changing(SecondConfig, [], SecondTaken, NoCall, Running, [Load(Due.change, Loading)], [(0, 0)]),
                  [AcquireDone(2, true), QueueLoaded(2)]) ==
      Changing(SecondConfig, [Settings(SecondReady)], SecondTaken, NoCall, Running, [Ended], [(0, 0), (1, 0)])
  {
    var s := Changing(SecondConfig, [], SecondTaken, NoCall, Running, [Load(Due.change, Loading)], [(0, 0)]);
    Two(s, AcquireDone(2, true), QueueLoaded(2));
    assert Next(s, AcquireDone(2, true)) ==
      Changing(SecondConfig, [], SecondTaken, NoCall, Running, [Load(SecondReady, Loaded)], [(0, 0), (1, 0)]);
  }

  lemma SecondIsChecked()
    ensures After(Changing(SecondConfig, [Settings(SecondReady)], SecondTaken, NoCall, Running, [Ended], [(0, 0), (1, 0)]),
                  [TakeQueue, ApplyHead]) ==
      Changing(SecondConfig, [], SecondTaken, NoCall, Checked(SecondReady), [Ended], [(0, 0), (1, 0)])
  {
    var s := Changing(SecondConfig, [Settings(SecondReady)], SecondTaken, NoCall, Running, [Ended], [(0, 0), (1, 0)]);
    Two(s, TakeQueue, ApplyHead);
    assert Next(s, TakeQueue) == Changing(SecondConfig, [], SecondTaken, NoCall, Running, [Ended], [(0, 0), (1, 0)])
                                 .(local := [Settings(SecondReady)]);
  }

  /** On from the check of the first config to its stream. */
  const UntilStream := UntilCheck + [ReadIdentity, BuildDone] + [SpawnStream, TryStream(1, StreamOk)]
    + [QueueStream(1), TakeQueue] + [ApplyHead, UpdateEnter(SecondConfig)]

  lemma UntilStreamRuns()
    ensures After(NewWorker(FirstConfig, {}), UntilStream) ==
      Changing(FirstConfig, [], FirstDone, Entering(SecondConfig), Running, [], [(0, 0)])
  {
    var s := NewWorker(FirstConfig, {});
    var a := UntilCheck + [ReadIdentity, BuildDone];
    var b := a + [SpawnStream, TryStream(1, StreamOk)];
    var c := b + [QueueStream(1), TakeQueue];
    hide Next;
    hide After;
    hide WithFirst;
    hide Streaming;
    hide Changing;
    UntilCheckRuns();
    AfterConcat(s, UntilCheck, [ReadIdentity, BuildDone]);
    FirstIsInstalled();
    AfterConcat(s, a, [SpawnStream, TryStream(1, StreamOk)]);
    StreamIsUp();
    AfterConcat(s, b, [QueueStream(1), TakeQueue]);
    StreamIsTaken();
    AfterConcat(s, c, [ApplyHead, UpdateEnter(SecondConfig)]);
    StreamIsInstalled();
  }

  /** On to the check of the second config, which needs another model for the same pipeline. */
  const UntilRaise := UntilStream + [UpdateApply, UpdateRequest(true)] + [UpdateSpawnLoad, CheckCurrent(2)]
    + [AcquireDone(2, true), QueueLoaded(2)] + [TakeQueue, ApplyHead]

  lemma UntilRaiseRuns()
    ensures Run(FirstConfig, {}, UntilRaise) ==
      Changing(SecondConfig, [], SecondTaken, NoCall, Checked(SecondReady), [Ended], [(0, 0), (1, 0)])
  {
    var s := NewWorker(FirstConfig, {});
    var a := UntilStream + [UpdateApply, UpdateRequest(true)];
    var b := a + [UpdateSpawnLoad, CheckCurrent(2)];
    var c := b + [AcquireDone(2, true), QueueLoaded(2)];
    hide Next;
    hide After;
    hide Changing;
    RunIsAfter(FirstConfig, UntilRaise);
    hide Run;
    UntilStreamRuns();
    AfterConcat(s, UntilStream, [UpdateApply, UpdateRequest(true)]);
    SecondIsRequested();
    AfterConcat(s, a, [UpdateSpawnLoad, CheckCurrent(2)]);
    SecondIsLoading();
    AfterConcat(s, b, [AcquireDone(2, true), QueueLoaded(2)]);
    SecondIsQueued();
    AfterConcat(s, c, [TakeQueue, ApplyHead]);
    SecondIsChecked();
  }

  lemma RunStep(config: Config, steps: seq<Step>, step: Step)
    ensures Run(config, {}, steps + [step]) == Next(Run(config, {}, steps), step)
  {
    hide Next;
    assert (steps + [step])[..|steps|] == steps;
  }

  /**
   * A run in which the model hook raises on the second config: nothing is in flight any more, the first config
   * still counts as applied, and the second one is neither settled nor reported.
   */
  lemma RaisedHookIsSilent()
    ensures var s := Run(FirstConfig, {}, UntilRaise + [ApplyDone(true)]);
      && Quiescent(s) && s.config == SecondConfig && s.setup.applied == Some(FirstConfig)
      && s.gens.settings == 2 && s.gens.settled == 1 && s.gens.retired == [Retired(1, Applied), Retired(2, Crashed)]
      && s.versions.rejected == {} && s.versions.sent == []
  {
    UntilRaiseRuns();
    RunStep(FirstConfig, UntilRaise, ApplyDone(true));
    hide Run;
  }

  lemma SameConfigTwice(s: State)
    requires Quiescent(s) && s.gens.settled != s.gens.settings
    ensures Next(Next(s, UpdateEnter(s.config)), UpdateApply) == s
  {
    assert Next(s, UpdateEnter(s.config)) == s.(caller := Entering(s.config));
  }

  /**
   * In every run: once nothing is in flight and the model hook has raised on the newest change, giving the worker
   * the same config again changes nothing.
   */
  lemma SameConfigIsNotRetried(config: Config, seeded: set<int>, steps: seq<Step>)
    requires var s := Run(config, seeded, steps);
      Quiescent(s) && Retired(s.gens.settings, Crashed) in s.gens.retired
    ensures var s := Run(config, seeded, steps);
      Next(Next(s, UpdateEnter(s.config)), UpdateApply) == s
  {
    SettingsConverge(config, seeded, steps);
    hide Run;
    hide Next;
    hide Quiescent;
    SameConfigTwice(Run(config, seeded, steps));
  }
}
