/**
 * A version whose model did not load is asked for again when its config comes again, and no other rejected version
 * is: over every interleaving of the camera worker's protocol.
 */
module WorkerRetries {
  import opened Options
  import opened Seqs
  import opened WorkerConvergence
  import opened WorkerProtocol

  // ---- what makes a version one to load again ---------------------------------------------------------------

  /** A load of the version failed while it was the newest change, with no stop asked for. */
  predicate LoadRejects(s: State, step: Step, version: int) {
    && step.RejectLoad? && Enabled(s, step)
    && s.helpers[step.helper].change.config.settings.version == version && IsCurrent(s, s.helpers[step.helper].change)
  }

  /** update() is given the newest config, which has the version, while nothing is in flight. */
  predicate AsksAgain(s: State, step: Step, version: int) {
    && step.UpdateEnter? && s.caller.NoCall? && !s.stopping && s.gens.settled == s.gens.settings
    && step.config == s.config && s.config.settings.version == version
  }

  /** The version's load failed, and it was not asked for again since. */
  ghost predicate LoadFailedSince(config: Config, seeded: set<int>, steps: seq<Step>, version: int) {
    exists n :: 0 <= n < |steps| && LoadRejects(Run(config, seeded, steps[..n]), steps[n], version)
      && (forall m | n < m < |steps| :: !AsksAgain(Run(config, seeded, steps[..m]), steps[m], version))
  }

  lemma RejectRemembers(s: State, config: Config, gen: Option<nat>, loadError: bool)
    ensures Reject(s, config, gen, loadError).versions.loadFailed ==
      if loadError && !Superseded(s, gen) then s.versions.loadFailed + {config.settings.version}
      else s.versions.loadFailed
  {
  }

  lemma CallerRemembers(s: State, step: Step, version: int)
    requires step.UpdateEnter? || step.UpdateRequest?
    ensures version in Next(s, step).versions.loadFailed <==>
      version in s.versions.loadFailed && !AsksAgain(s, step, version)
  {
    if step.UpdateRequest? && s.caller.SettingsDue? {
      RejectRemembers(s.(caller := NoCall), s.config, None, false);
      hide Reject;
    }
  }

  lemma HelperRemembers(s: State, step: Step, version: int)
    requires step.ParseFirst? || step.RejectLoad?
    ensures version in Next(s, step).versions.loadFailed <==>
      version in s.versions.loadFailed || LoadRejects(s, step, version)
  {
    if Enabled(s, step) {
      var change := s.helpers[step.helper].change;
      RejectRemembers(SetHelper(s, step.helper, Ended), change.config, Some(change.gen), step.RejectLoad?);
      hide Reject;
    }
  }

  lemma WorkerRemembers(s: State, step: Step)
    requires step.BuildFailed? || step.ApplyFailed?
    ensures Next(s, step).versions.loadFailed == s.versions.loadFailed
  {
    if Enabled(s, step) {
      var change := s.worker.change;
      RejectRemembers(Release(s.(worker := Running), change.detector), change.config, Some(change.gen), false);
      hide Reject;
    }
  }

  lemma NextRemembers(s: State, step: Step, version: int)
    ensures version in Next(s, step).versions.loadFailed <==>
      LoadRejects(s, step, version) || (version in s.versions.loadFailed && !AsksAgain(s, step, version))
  {
    NextFramed(s, step);
    hide Next;
    match step
    case UpdateEnter(_) | UpdateRequest(_) => CallerRemembers(s, step, version);
    case ParseFirst(_, _) | RejectLoad(_) => HelperRemembers(s, step, version);
    case BuildFailed | ApplyFailed => WorkerRemembers(s, step);
    case _ =>
  }

  lemma SinceStep(config: Config, seeded: set<int>, front: seq<Step>, last: Step, version: int)
    ensures var s := Run(config, seeded, front);
      LoadFailedSince(config, seeded, front + [last], version) <==>
      LoadRejects(s, last, version) || (LoadFailedSince(config, seeded, front, version) && !AsksAgain(s, last, version))
  {
    hide Run;
    hide LoadRejects;
    hide AsksAgain;
    var steps := front + [last];
    assert steps[..|front|] == front;
    assert forall n | 0 <= n < |front| :: steps[..n] == front[..n] && steps[n] == front[n];
    if LoadRejects(Run(config, seeded, front), last, version) {
      assert LoadRejects(Run(config, seeded, steps[..|front|]), steps[|front|], version);
    }
    if LoadFailedSince(config, seeded, steps, version) {
      var n :| 0 <= n < |steps| && LoadRejects(Run(config, seeded, steps[..n]), steps[n], version)
        && (forall m | n < m < |steps| :: !AsksAgain(Run(config, seeded, steps[..m]), steps[m], version));
      if n < |front| {
        assert !AsksAgain(Run(config, seeded, steps[..|front|]), steps[|front|], version);
        assert LoadRejects(Run(config, seeded, front[..n]), front[n], version);
        forall m | n < m < |front|
          ensures !AsksAgain(Run(config, seeded, front[..m]), front[m], version)
        {
          assert !AsksAgain(Run(config, seeded, steps[..m]), steps[m], version);
        }
      }
    }
    if LoadFailedSince(config, seeded, front, version) && !AsksAgain(Run(config, seeded, front), last, version) {
      var n :| 0 <= n < |front| && LoadRejects(Run(config, seeded, front[..n]), front[n], version)
        && (forall m | n < m < |front| :: !AsksAgain(Run(config, seeded, front[..m]), front[m], version));
      assert LoadRejects(Run(config, seeded, steps[..n]), steps[n], version);
      forall m | n < m < |steps|
        ensures !AsksAgain(Run(config, seeded, steps[..m]), steps[m], version)
      {
        if m < |front| {
          assert !AsksAgain(Run(config, seeded, front[..m]), front[m], version);
        }
      }
    }
  }

  /** What the worker remembers is what happened. */
  lemma {:induction false} RememberedIff(config: Config, seeded: set<int>, steps: seq<Step>, version: int)
    ensures version in Run(config, seeded, steps).versions.loadFailed <==>
      LoadFailedSince(config, seeded, steps, version)
  {
    hide LoadFailedSince;
    if steps == [] {
      NoStepsFailNone(config, seeded, version);
    } else {
      var front, last := steps[..|steps| - 1], steps[|steps| - 1];
      assert steps == front + [last];
      RememberedIff(config, seeded, front, version);
      NextRemembers(Run(config, seeded, front), last, version);
      SinceStep(config, seeded, front, last, version);
      hide Next;
      hide LoadRejects;
      hide AsksAgain;
    }
  }

  lemma NoStepsFailNone(config: Config, seeded: set<int>, version: int)
    ensures !LoadFailedSince(config, seeded, [], version)
  {
  }

  // ---- the same config again --------------------------------------------------------------------------------

  /** The newest generation is one for `config`, on its way to the worker thread or to a load. */
  predicate JustAsked(s: State, config: Config) {
    var change := Change(s.gens.settings, config, true, None);
    s.caller == LoadDue(change) || (s.queue != [] && s.queue[|s.queue| - 1] == Settings(change))
  }

  lemma SameConfigAgain(s: State, again: bool)
    requires s.caller.NoCall?
    requires again == (!s.stopping && s.gens.settled == s.gens.settings
                       && s.config.settings.version in s.versions.loadFailed)
    ensures var t := Next(Next(Next(s, UpdateEnter(s.config)), UpdateApply), UpdateRequest(true));
      && t.gens.settings == s.gens.settings + One(again)
      && (again ==> t.gens.configs == s.gens.configs + [s.config] && JustAsked(t, s.config))
      && (!again ==> t == s)
  {
    var e := Next(s, UpdateEnter(s.config));
    if again {
      assert Next(e, UpdateApply) == e && e.caller.SettingsDue?;
      hide NeedsDetector;
    } else {
      assert e == s.(caller := Entering(s.config));
      assert Next(e, UpdateApply) == s;
    }
  }

  lemma Three(s: State, a: Step, b: Step, c: Step)
    ensures After(s, [a, b, c]) == Next(Next(Next(s, a), b), c)
  {
    hide Next;
    assert [a] == [] + [a] && [a, b] == [a] + [b] && [a, b, c] == [a, b] + [c];
    AfterStep(s, [], a);
    AfterStep(s, [a], b);
    AfterStep(s, [a, b], c);
    assert After(s, []) == s;
    hide After;
  }

  /**
   * In every run: a call of update() with the newest config takes a new generation for it if and only if nothing is in
   * flight, no stop was asked for, and the config's version had a failed load it was not asked for again since; a
   * version rejected only for its settings or by its install is not asked for. Otherwise the call changes nothing.
   */
  lemma SameConfigIsLoadedAgainIff(config: Config, seeded: set<int>, steps: seq<Step>)
    requires Run(config, seeded, steps).caller.NoCall?
    ensures var s := Run(config, seeded, steps);
      var t := After(s, [UpdateEnter(s.config), UpdateApply, UpdateRequest(true)]);
      var again := !s.stopping && s.gens.settled == s.gens.settings
        && LoadFailedSince(config, seeded, steps, s.config.settings.version);
      && t.gens.settings == s.gens.settings + One(again)
      && (again ==> t.gens.configs == s.gens.configs + [s.config] && JustAsked(t, s.config))
      && (!again ==> t == s)
  {
    var s := Run(config, seeded, steps);
    RememberedIff(config, seeded, steps, s.config.settings.version);
    hide Run;
    hide LoadFailedSince;
    var again := !s.stopping && s.gens.settled == s.gens.settings && s.config.settings.version in s.versions.loadFailed;
    Three(s, UpdateEnter(s.config), UpdateApply, UpdateRequest(true));
    hide Next;
    hide JustAsked;
    SameConfigAgain(s, again);
  }

  // ---- which versions are rejected --------------------------------------------------------------------------

  /** The step shows that the version cannot run, of a change that is the newest, with no stop asked for. */
  predicate Rejects(s: State, step: Step, version: int) {
    && Enabled(s, step)
    && match step
       case UpdateRequest(parses) => !parses && !s.stopping && s.config.settings.version == version
       case ParseFirst(h, ok) =>
         !ok && s.helpers[h].change.config.settings.version == version && IsCurrent(s, s.helpers[h].change)
       case RejectLoad(h) =>
         s.helpers[h].change.config.settings.version == version && IsCurrent(s, s.helpers[h].change)
       case BuildFailed => s.worker.change.config.settings.version == version && IsCurrent(s, s.worker.change)
       case ApplyFailed => s.worker.change.config.settings.version == version && IsCurrent(s, s.worker.change)
       case _ => false
  }

  ghost predicate WasRejected(config: Config, seeded: set<int>, steps: seq<Step>, version: int) {
    exists n :: 0 <= n < |steps| && Rejects(Run(config, seeded, steps[..n]), steps[n], version)
  }

  lemma RejectRecords(s: State, config: Config, gen: Option<nat>, loadError: bool)
    ensures Reject(s, config, gen, loadError).versions.rejected ==
      if Superseded(s, gen) then s.versions.rejected else s.versions.rejected + {config.settings.version}
  {
  }

  lemma CallerRecords(s: State, step: Step, version: int)
    requires step.UpdateEnter? || step.UpdateRequest?
    ensures version in Next(s, step).versions.rejected <==> version in s.versions.rejected || Rejects(s, step, version)
  {
    if step.UpdateRequest? && s.caller.SettingsDue? {
      RejectRecords(s.(caller := NoCall), s.config, None, false);
      hide Reject;
    }
  }

  lemma HelperRecords(s: State, step: Step, version: int)
    requires step.ParseFirst? || step.RejectLoad?
    ensures version in Next(s, step).versions.rejected <==> version in s.versions.rejected || Rejects(s, step, version)
  {
    if Enabled(s, step) {
      var change := s.helpers[step.helper].change;
      RejectRecords(SetHelper(s, step.helper, Helper.Ended), change.config, Some(change.gen), step.RejectLoad?);
      hide Reject;
    }
  }

  lemma WorkerRecords(s: State, step: Step, version: int)
    requires step.BuildFailed? || step.ApplyFailed?
    ensures version in Next(s, step).versions.rejected <==> version in s.versions.rejected || Rejects(s, step, version)
  {
    if Enabled(s, step) {
      var change := s.worker.change;
      RejectRecords(Release(s.(worker := Running), change.detector), change.config, Some(change.gen), false);
      hide Reject;
    }
  }

  lemma NextRecords(s: State, step: Step, version: int)
    ensures version in Next(s, step).versions.rejected <==> version in s.versions.rejected || Rejects(s, step, version)
  {
    NextFramed(s, step);
    match step
    case UpdateEnter(_) | UpdateRequest(_) => hide Next; CallerRecords(s, step, version);
    case ParseFirst(_, _) | RejectLoad(_) => hide Next; HelperRecords(s, step, version);
    case BuildFailed | ApplyFailed => hide Next; WorkerRecords(s, step, version);
    case _ => hide Next;
  }

  lemma WasRejectedStep(config: Config, seeded: set<int>, front: seq<Step>, last: Step, version: int)
    ensures WasRejected(config, seeded, front + [last], version) <==>
      WasRejected(config, seeded, front, version) || Rejects(Run(config, seeded, front), last, version)
  {
    hide Run;
    hide Rejects;
    var steps := front + [last];
    assert forall n | 0 <= n < |front| :: steps[..n] == front[..n] && steps[n] == front[n];
    assert steps[..|front|] == front && steps[|front|] == last;
  }

  /**
   * In every run the versions on record as rejected are those known before, and those of changes that failed to parse,
   * to load or to be installed while they were the newest and no stop was asked for: a superseded change is not.
   */
  lemma {:induction false} RejectedIff(config: Config, seeded: set<int>, steps: seq<Step>, version: int)
    ensures version in Run(config, seeded, steps).versions.rejected <==>
      version in seeded || WasRejected(config, seeded, steps, version)
  {
    if steps != [] {
      var front, last := steps[..|steps| - 1], steps[|steps| - 1];
      assert steps == front + [last];
      hide WasRejected;
      RejectedIff(config, seeded, front, version);
      NextRecords(Run(config, seeded, front), last, version);
      WasRejectedStep(config, seeded, front, last, version);
      hide Next;
      hide Rejects;
    }
  }

  // ---- the outcome of a load --------------------------------------------------------------------------------

  /** The pool gave the helper's load this outcome. */
  predicate PoolAnswers(s: State, step: Step, h: nat, ok: bool) {
    step == AcquireDone(h, ok) && Enabled(s, step)
  }

  predicate LoadOver(s: State, h: nat, ok: bool) {
    h < |s.helpers| && s.helpers[h].Load? && s.helpers[h].phase == if ok then Loaded else LoadError
  }

  lemma EndedByThePool(s: State, step: Step, h: nat, ok: bool)
    requires LoadOver(Next(s, step), h, ok)
    ensures LoadOver(s, h, ok) || PoolAnswers(s, step, h, ok)
  {
    match step
    case ParseFirst(_, _) | CheckCurrent(_) | AcquireDone(_, _) | QueueLoaded(_) | RejectLoad(_) =>
      HelperEnds(s, step, h, ok);
    case TryStream(_, _) | RetryStream(_) | QueueStream(_) | SpawnStream => StreamEnds(s, step, h, ok);
    case BuildDone | BuildFailed | ApplyFailed | ApplyDone(_) | ApplyHead | SpawnLoad => WorkerEnds(s, step, h, ok);
    case _ => OthersEnd(s, step, h, ok);
  }

  lemma HelperEnds(s: State, step: Step, h: nat, ok: bool)
    requires step.ParseFirst? || step.CheckCurrent? || step.AcquireDone? || step.QueueLoaded? || step.RejectLoad?
    requires LoadOver(Next(s, step), h, ok)
    ensures LoadOver(s, h, ok) || PoolAnswers(s, step, h, ok)
  {
  }

  lemma StreamEnds(s: State, step: Step, h: nat, ok: bool)
    requires step.TryStream? || step.RetryStream? || step.QueueStream? || step.SpawnStream?
    requires LoadOver(Next(s, step), h, ok)
    ensures LoadOver(s, h, ok)
  {
  }

  lemma WorkerEnds(s: State, step: Step, h: nat, ok: bool)
    requires step.BuildDone? || step.BuildFailed? || step.ApplyFailed? || step.ApplyDone? || step.ApplyHead?
      || step.SpawnLoad?
    requires LoadOver(Next(s, step), h, ok)
    ensures LoadOver(s, h, ok)
  {
  }

  lemma OthersEnd(s: State, step: Step, h: nat, ok: bool)
    requires !step.ParseFirst? && !step.CheckCurrent? && !step.AcquireDone? && !step.QueueLoaded? && !step.RejectLoad?
      && !step.TryStream? && !step.RetryStream? && !step.QueueStream? && !step.SpawnStream? && !step.BuildDone?
      && !step.BuildFailed? && !step.ApplyFailed? && !step.ApplyDone? && !step.ApplyHead? && !step.SpawnLoad?
    requires LoadOver(Next(s, step), h, ok)
    ensures LoadOver(s, h, ok)
  {
  }

  /** A load is queued or given up as the pool decided: with a detector it acquired, or without one it could not load. */
  lemma {:induction false} LoadEndedAsThePoolSaid(config: Config, seeded: set<int>, steps: seq<Step>, h: nat, ok: bool)
    returns (n: nat)
    requires LoadOver(Run(config, seeded, steps), h, ok)
    ensures n < |steps| && PoolAnswers(Run(config, seeded, steps[..n]), steps[n], h, ok)
  {
    assert steps != [];
    var front, last := steps[..|steps| - 1], steps[|steps| - 1];
    var s := Run(config, seeded, front);
    hide Next;
    EndedByThePool(s, last, h, ok);
    hide Run;
    if LoadOver(s, h, ok) {
      n := LoadEndedAsThePoolSaid(config, seeded, front, h, ok);
      assert front[..n] == steps[..n];
    } else {
      n := |front|;
    }
  }
}
