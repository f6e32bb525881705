/**
 * What update() asks for, and when a settings change loads a model: exactly when the use case or the model is not that of
 * the settings applied.
 */
module WorkerModels {
  import opened Options
  import opened Seqs
  import opened WorkerProtocol
  import WorkerConvergence

  predicate SameUseCase(s: State, c: Config) {
    s.setup.applied.Some? && s.setup.applied.value.settings.useCase == c.settings.useCase
  }

  /** The settings applied have the use case, the model path and the image size of `c`. */
  predicate SameModel(s: State, c: Config) {
    SameUseCase(s, c) && ModelKey(s.setup.applied.value) == ModelKey(c)
  }

  lemma NeedsIff(config: Config, seeded: set<int>, steps: seq<Step>, change: Change)
    ensures var s := Run(config, seeded, steps);
      && (NeedsDetector(s, change) <==> !SameModel(s, change.config))
      && (Rebuilds(s, change) <==> !SameUseCase(s, change.config))
  {
    WorkerConvergence.RunKeepsInv(config, seeded, steps);
    var s := Run(config, seeded, steps);
    hide Run;
    assert WorkerConvergence.SetupOk(s);
  }

  /**
   * In every run, update() with settings that parse queues the change at once if and only if its use case and model are
   * those applied, and else sends it for a load; either way it takes one generation.
   */
  lemma UpdateLoadsIff(config: Config, seeded: set<int>, steps: seq<Step>)
    requires Run(config, seeded, steps).caller.SettingsDue?
    ensures var s := Run(config, seeded, steps);
      var t := Next(s, UpdateRequest(true));
      var change := Change(s.gens.settings + 1, s.config, true, None);
      && t.gens.settings == s.gens.settings + 1 && t.helpers == s.helpers && t.ledger == s.ledger
      && (SameModel(s, s.config) ==> t.caller.NoCall? && t.queue == s.queue + [Settings(change)])
      && (!SameModel(s, s.config) ==> t.caller == LoadDue(change) && t.queue == s.queue)
  {
    var s := Run(config, seeded, steps);
    NeedsIff(config, seeded, steps, Change(s.gens.settings + 1, s.config, true, None));
    hide Run;
  }

  /**
   * In every run the worker loads first for a checked change without a detector whose use case or model is not the one
   * applied by now, makes a new pipeline for another use case, and else goes on with the pipeline it has.
   */
  lemma CheckedChangeGoes(config: Config, seeded: set<int>, steps: seq<Step>)
    requires Run(config, seeded, steps).worker.Checked?
    ensures var s := Run(config, seeded, steps);
      var change := s.worker.change;
      && (Enabled(s, SpawnLoad) <==> change.detector.None? && !SameModel(s, change.config))
      && (Enabled(s, ReadIdentity) <==> change.detector.Some? && !SameUseCase(s, change.config))
      && (Enabled(s, ApplyDone(false)) <==>
            if change.detector.None? then SameModel(s, change.config) else SameUseCase(s, change.config))
  {
    NeedsIff(config, seeded, steps, Run(config, seeded, steps).worker.change);
    CheckedEnables(Run(config, seeded, steps));
    SameModelHasUseCase(Run(config, seeded, steps), Run(config, seeded, steps).worker.change.config);
    hide *;
  }

  lemma SameModelHasUseCase(s: State, c: Config)
    ensures SameModel(s, c) ==> SameUseCase(s, c)
  {
  }

  lemma CheckedEnables(s: State)
    requires s.worker.Checked?
    ensures var change := s.worker.change;
      && (Enabled(s, SpawnLoad) <==> change.detector.None? && NeedsDetector(s, change))
      && (Enabled(s, ReadIdentity) <==> (change.detector.Some? || !NeedsDetector(s, change)) && Rebuilds(s, change))
      && (Enabled(s, ApplyDone(false)) <==> (change.detector.Some? || !NeedsDetector(s, change)) && !Rebuilds(s, change))
      && (Rebuilds(s, change) ==> NeedsDetector(s, change))
  {
  }

  /** Nobody calls update(), the worker runs and has nothing to do. */
  predicate Idle(s: State) {
    s.caller.NoCall? && s.worker.Running? && s.queue == [] && s.local == [] && !s.stopping
  }

  /** The steps of update() with other settings only, and of the worker, undisturbed. */
  function SettingsOnly(c: Config, hookRaises: bool): seq<Step> {
    [UpdateEnter(c), UpdateApply, UpdateRequest(true), TakeQueue, ApplyHead, ApplyDone(hookRaises)]
  }

  lemma Asked(s: State, c: Config)
    requires Idle(s) && !RetriesLoad(s, c)
    requires c.settings != s.config.settings && c.stream == s.config.stream && c.identity == s.config.identity
    requires !NeedsDetector(s, Change(s.gens.settings + 1, c, true, None))
    ensures var t := Next(Next(Next(s, UpdateEnter(c)), UpdateApply), UpdateRequest(true));
      t == s.(config := c, queue := [Settings(Change(s.gens.settings + 1, c, true, None))],
              gens := s.gens.(settings := s.gens.settings + 1, configs := s.gens.configs + [c]))
  {
  }

  lemma TakenUp(s: State, change: Change, hookRaises: bool)
    requires s.worker.Running? && s.local == [] && !s.stopping && s.queue == [Settings(change)]
    requires change.gen == s.gens.settings && change.detector.None? && !NeedsDetector(s, change)
    ensures var t := Next(Next(Next(s, TakeQueue), ApplyHead), ApplyDone(hookRaises));
      t == MarkApplied(s.(queue := []), change)
  {
    hide CleanedUp;
    hide Built;
    hide Reject;
    hide Started;
    hide UpdateApplied;
    hide UpdateRequested;
    var one := Next(s, TakeQueue);
    assert one == s.(local := s.queue, queue := []);
    var two := Next(one, ApplyHead);
    assert two == s.(queue := [], worker := Checked(change));
  }

  /**
   * In every run, an idle worker given new settings for the use case and model it runs applies them with the pipeline,
   * the detector and the stream it has: nothing is loaded, released or started.
   */
  lemma SameModelIsAppliedInPlace(config: Config, seeded: set<int>, steps: seq<Step>, c: Config, hookRaises: bool)
    requires Idle(Run(config, seeded, steps)) && SameModel(Run(config, seeded, steps), c)
    requires var last := Run(config, seeded, steps).config;
      c.settings != last.settings && c.stream == last.stream && c.identity == last.identity
    ensures var s := Run(config, seeded, steps);
      var t := After(s, SettingsOnly(c, hookRaises));
      && t.setup == s.setup.(applied := Some(c)) && t.ledger == s.ledger && t.helpers == s.helpers
      && Idle(t) && t.config == c && t.gens.settled >= t.gens.settings == s.gens.settings + 1
      && t.gens.retired == s.gens.retired + [Retired(t.gens.settings, Applied)]
  {
    var s := Run(config, seeded, steps);
    var change := Change(s.gens.settings + 1, c, true, None);
    NeedsIff(config, seeded, steps, change);
    KeyIsApplied(config, seeded, steps);
    hide Run;
    Asked(s, c);
    var t := Next(Next(Next(s, UpdateEnter(c)), UpdateApply), UpdateRequest(true));
    assert !NeedsDetector(t, change);
    TakenUp(t, change, hookRaises);
    SixSteps(s, c, hookRaises);
    hide Next;
  }

  lemma KeyIsApplied(config: Config, seeded: set<int>, steps: seq<Step>)
    requires Run(config, seeded, steps).setup.applied.Some?
    ensures Run(config, seeded, steps).setup.key == Some(ModelKey(Run(config, seeded, steps).setup.applied.value))
  {
    WorkerConvergence.RunKeepsInv(config, seeded, steps);
    hide Run;
    assert WorkerConvergence.SetupOk(Run(config, seeded, steps));
  }

  lemma SixSteps(s: State, c: Config, hookRaises: bool)
    ensures After(s, SettingsOnly(c, hookRaises)) ==
      Next(Next(Next(Next(Next(Next(s, UpdateEnter(c)), UpdateApply), UpdateRequest(true)), TakeQueue), ApplyHead),
           ApplyDone(hookRaises))
  {
    hide Next;
    var steps := SettingsOnly(c, hookRaises);
    forall n | 0 <= n < 6
      ensures After(s, steps[..n + 1]) == Next(After(s, steps[..n]), steps[n])
    {
      assert steps[..n + 1] == steps[..n] + [steps[n]];
      AfterStep(s, steps[..n], steps[n]);
    }
    assert steps[..6] == steps;
    assert After(s, steps[..0 + 1]) == Next(After(s, steps[..0]), steps[0]);
    assert After(s, steps[..1 + 1]) == Next(After(s, steps[..1]), steps[1]);
    assert After(s, steps[..2 + 1]) == Next(After(s, steps[..2]), steps[2]);
    assert After(s, steps[..3 + 1]) == Next(After(s, steps[..3]), steps[3]);
    assert After(s, steps[..4 + 1]) == Next(After(s, steps[..4]), steps[4]);
    assert After(s, steps[..5 + 1]) == Next(After(s, steps[..5]), steps[5]);
  }

  // ---- one call of update() --------------------------------------------------------------------------------

  /** The steps of one call undisturbed; those it does not need change nothing. */
  function OneUpdate(c: Config): seq<Step> {
    [UpdateEnter(c), UpdateApply, UpdateSpawnStream, UpdateRequest(true), UpdateSpawnLoad]
  }

  /** The new stream helper, when the source changed and a pipeline wants a stream. */
  predicate NewStream(s: State, c: Config) {
    c.stream != s.config.stream && s.setup.streamWanted
  }

  predicate NewSettings(s: State, c: Config) {
    c.settings != s.config.settings
  }

  function IdentityItem(s: State, c: Config): seq<Item> {
    if c.identity != s.config.identity then [Identity] else []
  }

  function NewChange(s: State, c: Config): Change {
    Change(s.gens.settings + 1, c, true, None)
  }

  /** What a call with `c` leaves: one request for each thing that differs, and no other. */
  ghost predicate AsksFor(s: State, c: Config, t: State) {
    && t.caller.NoCall? && t.config == c
    && t.gens.settings == s.gens.settings + One(NewSettings(s, c))
    && t.gens.stream == s.gens.stream + One(NewStream(s, c))
    && t.queue == s.queue + IdentityItem(s, c)
         + (if NewSettings(s, c) && !NeedsDetector(s, NewChange(s, c)) then [Settings(NewChange(s, c))] else [])
    && t.helpers == s.helpers
         + (if NewStream(s, c) then [StreamUp(t.gens.stream, Trying)] else [])
         + (if NewSettings(s, c) && NeedsDetector(s, NewChange(s, c)) then [Load(NewChange(s, c), Starting)] else [])
    && t.setup == s.setup && t.ledger == s.ledger && t.versions == s.versions && t.worker == s.worker
  }

  lemma AskedTwo(s: State, c: Config)
    requires s.caller.NoCall? && !RetriesLoad(s, c) && !s.stopping && c != s.config
    ensures var t := Next(Next(s, UpdateEnter(c)), UpdateApply);
      && t.caller == (if NewStream(s, c) then StreamDue(s.gens.stream + 1, NewSettings(s, c))
                      else if NewSettings(s, c) then SettingsDue else NoCall)
      && t == s.(config := c, queue := s.queue + IdentityItem(s, c), caller := t.caller,
                 gens := if NewStream(s, c)
                         then s.gens.(stream := s.gens.stream + 1, sources := s.gens.sources + [c.stream]) else s.gens)
  {
    assert s.queue + [] == s.queue;
  }

  lemma AskedThree(s: State, gen: nat, too: bool)
    requires !s.stopping && (s.caller == StreamDue(gen, too) || (!s.caller.StreamDue? && too == s.caller.SettingsDue?))
    requires s.caller.StreamDue? || s.caller.SettingsDue? || s.caller.NoCall?
    ensures Next(s, UpdateSpawnStream) ==
      s.(caller := if too then SettingsDue else NoCall,
         helpers := s.helpers + if s.caller.StreamDue? then [StreamUp(gen, Trying)] else [])
  {
    assert s.helpers + [] == s.helpers;
  }

  lemma AskedFive(s: State)
    requires !s.stopping && (s.caller.SettingsDue? || s.caller.NoCall?)
    ensures var t := Next(Next(s, UpdateRequest(true)), UpdateSpawnLoad);
      var change := NewChange(s, s.config);
      if s.caller.NoCall? then t == s
      else
        t == s.(caller := NoCall,
                gens := s.gens.(settings := s.gens.settings + 1, configs := s.gens.configs + [s.config]),
                queue := s.queue + (if NeedsDetector(s, change) then [] else [Settings(change)]),
                helpers := s.helpers + (if NeedsDetector(s, change) then [Load(change, Starting)] else []))
  {
    assert s.queue + [] == s.queue && s.helpers + [] == s.helpers;
  }

  /**
   * In every state, a call of update() with another config and no stop in between asks for exactly what differs: a
   * settings generation, queued or loaded, a stream generation if a stream is wanted, an identity change; and a call
   * after a stop, or with the same config and nothing to retry, changes nothing.
   */
  lemma UpdateAsksForWhatDiffers(s: State, c: Config)
    requires s.caller.NoCall? && !RetriesLoad(s, c)
    ensures var t := After(s, OneUpdate(c));
      if s.stopping || c == s.config then t == s else AsksFor(s, c, t)
  {
    FiveSteps(s, c);
    if s.stopping || c == s.config {
      UpdateIgnored(s, c);
    } else {
      AskedTwo(s, c);
      hide Next;
      hide NeedsDetector;
      var two := Next(Next(s, UpdateEnter(c)), UpdateApply);
      AskedThree(two, s.gens.stream + 1, NewSettings(s, c));
      var three := Next(two, UpdateSpawnStream);
      AskedFive(three);
      SameNeed(s, three, NewChange(s, c));
      Joined(s.queue, IdentityItem(s, c));
    }
  }

  lemma Joined<T>(a: seq<T>, b: seq<T>)
    ensures a + b + [] == a + b && a + [] == a
  {
  }

  lemma SameNeed(s: State, t: State, change: Change)
    requires t.setup == s.setup
    ensures NeedsDetector(t, change) == NeedsDetector(s, change)
  {
  }

  lemma UpdateIgnored(s: State, c: Config)
    requires s.caller.NoCall? && !RetriesLoad(s, c) && (s.stopping || c == s.config)
    ensures Next(Next(Next(Next(Next(s, UpdateEnter(c)), UpdateApply), UpdateSpawnStream), UpdateRequest(true)),
                 UpdateSpawnLoad) == s
  {
    assert Next(Next(s, UpdateEnter(c)), UpdateApply) == s;
  }

  lemma FiveSteps(s: State, c: Config)
    ensures After(s, OneUpdate(c)) ==
      Next(Next(Next(Next(Next(s, UpdateEnter(c)), UpdateApply), UpdateSpawnStream), UpdateRequest(true)), UpdateSpawnLoad)
  {
    hide Next;
    var steps := OneUpdate(c);
    forall n | 0 <= n < 5
      ensures After(s, steps[..n + 1]) == Next(After(s, steps[..n]), steps[n])
    {
      assert steps[..n + 1] == steps[..n] + [steps[n]];
      AfterStep(s, steps[..n], steps[n]);
    }
    assert steps[..5] == steps;
    assert After(s, steps[..0 + 1]) == Next(After(s, steps[..0]), steps[0]);
    assert After(s, steps[..1 + 1]) == Next(After(s, steps[..1]), steps[1]);
    assert After(s, steps[..2 + 1]) == Next(After(s, steps[..2]), steps[2]);
    assert After(s, steps[..3 + 1]) == Next(After(s, steps[..3]), steps[3]);
    assert After(s, steps[..4 + 1]) == Next(After(s, steps[..4]), steps[4]);
  }
}
