/**
 * Where the camera worker's protocol ends up: whatever the interleaving, once nothing is in flight the
 * worker runs the newest config it was given, or has reported why not.
 */
module WorkerConvergence {
  import opened Options
  import opened Seqs
  import opened WorkerGenerations
  import WorkerOwnership
  import opened WorkerProtocol

  // ---- what each step leaves alone -------------------------------------------------------------------

  predicate Framed(s: State, t: State, step: Step) {
    && (step.ApplyHead? || step.BuildDone? || step.ApplyDone? || t.setup == s.setup)
    && (step.UpdateApply? || t.config == s.config)
    && (step.UpdateEnter? || step.UpdateRequest? || step.ParseFirst? || step.RejectLoad? || step.BuildFailed?
        || step.ApplyFailed? || t.versions == s.versions)
    && (step.Start? || step.UpdateRequest? || (t.gens.settings == s.gens.settings && t.gens.configs == s.gens.configs))
    && (step.UpdateApply? || step.BuildDone? || (t.gens.stream == s.gens.stream && t.gens.sources == s.gens.sources))
    && (step.AcquireDone? || t.ledger.acquired == s.ledger.acquired)
    && (s.stopping ==> t.stopping)
  }

  lemma CallerFramed(s: State, step: Step)
    requires step.Start? || step.Stop? || step.UpdateEnter? || step.UpdateApply? || step.UpdateSpawnStream?
      || step.UpdateRequest? || step.UpdateSpawnLoad?
    ensures Framed(s, Next(s, step), step)
  {
  }

  lemma HelperFramed(s: State, step: Step)
    requires step.ParseFirst? || step.CheckCurrent? || step.AcquireDone? || step.QueueLoaded? || step.RejectLoad?
    ensures Framed(s, Next(s, step), step)
  {
  }

  lemma StreamFramed(s: State, step: Step)
    requires step.TryStream? || step.RetryStream? || step.QueueStream? || step.TakeQueue? || step.SpawnStream?
    ensures Framed(s, Next(s, step), step)
  {
  }

  lemma WorkerFramed(s: State, step: Step)
    requires step.FirstPrepared? || step.SpawnLoad? || step.ReadIdentity?
    ensures Framed(s, Next(s, step), step)
  {
  }

  lemma HeadFramed(s: State)
    ensures Framed(s, Next(s, ApplyHead), ApplyHead)
  {
  }

  lemma CleanedUpFramed(s: State, step: Step)
    requires step.Exit? || step.CleanUpUnstarted?
    ensures Framed(s, CleanedUp(s), step)
  {
  }

  lemma FailedFramed(s: State, step: Step)
    requires step.BuildFailed? || step.ApplyFailed?
    ensures Framed(s, Next(s, step), step)
  {
  }

  lemma BuiltFramed(s: State)
    ensures Framed(s, Next(s, BuildDone), BuildDone)
  {
  }

  lemma AppliedFramed(s: State, hookRaises: bool)
    ensures Framed(s, Next(s, ApplyDone(hookRaises)), ApplyDone(hookRaises))
  {
  }

  lemma NextFramed(s: State, step: Step)
    ensures Framed(s, Next(s, step), step)
  {
    match step
    case ParseFirst(_, _) | CheckCurrent(_) | AcquireDone(_, _) | QueueLoaded(_) | RejectLoad(_) =>
      hide Framed; hide Next; HelperFramed(s, step);
    case TryStream(_, _) | RetryStream(_) | QueueStream(_) | TakeQueue | SpawnStream =>
      hide Framed; hide Next; StreamFramed(s, step);
    case FirstPrepared | SpawnLoad | ReadIdentity => hide Framed; hide Next; WorkerFramed(s, step);
    case ApplyHead => hide Framed; hide Next; HeadFramed(s);
    case Exit | CleanUpUnstarted =>
      hide CleanedUp;
      if Enabled(s, step) {
        hide Framed;
        CleanedUpFramed(s, step);
      }
    case BuildFailed | ApplyFailed => hide Framed; hide Next; FailedFramed(s, step);
    case BuildDone => hide Framed; hide Next; BuiltFramed(s);
    case ApplyDone(hookRaises) => hide Framed; hide Next; AppliedFramed(s, hookRaises);
    case _ => hide Framed; hide Next; CallerFramed(s, step);
  }

  // ---- every change in flight is what was asked for ----------------------------------------------------

  /** The change carries the config of its generation, and a detector loaded for that config. */
  predicate ChangeOk(configs: seq<Config>, acquired: seq<(int, int)>, change: Change) {
    && 1 <= change.gen <= |configs| && change.config == configs[change.gen - 1]
    && (change.detector.Some? ==>
          change.detector.value < |acquired| && acquired[change.detector.value] == ModelKey(change.config))
  }

  predicate HelperAsks(configs: seq<Config>, acquired: seq<(int, int)>, helper: Helper) {
    helper.Load? ==> ChangeOk(configs, acquired, helper.change)
  }

  predicate ItemAsks(configs: seq<Config>, acquired: seq<(int, int)>, item: Item) {
    item.Settings? ==> ChangeOk(configs, acquired, item.change)
  }

  ghost predicate AsksOk(s: State) {
    var configs, acquired := s.gens.configs, s.ledger.acquired;
    && |configs| == s.gens.settings
    && (forall h | 0 <= h < |s.helpers| :: HelperAsks(configs, acquired, s.helpers[h]))
    && (forall i | 0 <= i < |s.queue| :: ItemAsks(configs, acquired, s.queue[i]))
    && (forall i | 0 <= i < |s.local| :: ItemAsks(configs, acquired, s.local[i]))
    && (s.caller.LoadDue? ==> ChangeOk(configs, acquired, s.caller.change))
    && (s.worker.Checked? || s.worker.Building? ==> ChangeOk(configs, acquired, s.worker.change))
  }

  /** Another config at the end leaves the changes asked for as they are. */
  lemma AsksGrow(s: State, configs: seq<Config>)
    requires AsksOk(s) && s.gens.configs <= configs
    ensures forall h | 0 <= h < |s.helpers| :: HelperAsks(configs, s.ledger.acquired, s.helpers[h])
    ensures forall i | 0 <= i < |s.queue| :: ItemAsks(configs, s.ledger.acquired, s.queue[i])
    ensures forall i | 0 <= i < |s.local| :: ItemAsks(configs, s.ledger.acquired, s.local[i])
    ensures s.worker.Checked? || s.worker.Building? ==> ChangeOk(configs, s.ledger.acquired, s.worker.change)
  {
    assert forall c: Change :: ChangeOk(s.gens.configs, s.ledger.acquired, c) ==>
        ChangeOk(configs, s.ledger.acquired, c);
    hide ChangeOk;
  }

  lemma CallerAsks(s: State, step: Step)
    requires AsksOk(s)
    requires step.Stop? || step.UpdateEnter? || step.UpdateApply? || step.UpdateSpawnStream? || step.UpdateSpawnLoad?
    ensures AsksOk(Next(s, step))
  {
    hide ChangeOk;
  }

  lemma StartAsks(s: State)
    requires AsksOk(s)
    ensures AsksOk(Next(s, Start))
  {
    AsksGrow(s, s.gens.configs + [s.config]);
    hide ItemAsks;
  }

  /** update() takes a settings generation. */
  predicate TakesGeneration(s: State, step: Step) {
    step.UpdateRequest? && s.caller.SettingsDue? && step.parses
  }

  lemma RequestAsks(s: State, step: Step)
    requires AsksOk(s) && step.UpdateRequest?
    ensures AsksOk(Next(s, step))
  {
    var t := Next(s, step);
    if TakesGeneration(s, step) {
      AsksGrow(s, s.gens.configs + [s.config]);
      hide HelperAsks;
      assert t.gens.configs == s.gens.configs + [s.config];
      assert forall i | 0 <= i < |s.queue| :: t.queue[i] == s.queue[i];
    }
  }

  lemma PrepareAsks(s: State, step: Step)
    requires AsksOk(s) && (step.ParseFirst? || step.CheckCurrent?)
    ensures AsksOk(Next(s, step))
  {
    if Enabled(s, step) {
      assert HelperAsks(s.gens.configs, s.ledger.acquired, s.helpers[step.helper]);
    }
    hide ItemAsks;
  }

  lemma AcquiredAsks(s: State, h: nat, ok: bool)
    requires AsksOk(s)
    ensures AsksOk(Next(s, AcquireDone(h, ok)))
  {
    if Enabled(s, AcquireDone(h, ok)) {
      assert HelperAsks(s.gens.configs, s.ledger.acquired, s.helpers[h]);
      var t := Acquired(s, h, ok);
      assert forall c: Change :: ChangeOk(s.gens.configs, s.ledger.acquired, c) ==>
          ChangeOk(s.gens.configs, t.ledger.acquired, c);
      assert HelperAsks(s.gens.configs, t.ledger.acquired, t.helpers[h]);
      hide ChangeOk;
    }
  }

  lemma QueueAsks(s: State, step: Step)
    requires AsksOk(s) && (step.QueueLoaded? || step.RejectLoad?)
    ensures AsksOk(Next(s, step))
  {
  }

  lemma StreamAsks(s: State, step: Step)
    requires AsksOk(s) && (step.TryStream? || step.RetryStream? || step.QueueStream? || step.SpawnStream?)
    ensures AsksOk(Next(s, step))
  {
    hide ChangeOk;
  }

  lemma WorkerAsks(s: State, step: Step)
    requires AsksOk(s) && (step.FirstPrepared? || step.TakeQueue? || step.ReadIdentity?)
    ensures AsksOk(Next(s, step))
  {
    hide ItemAsks;
    hide HelperAsks;
    hide ChangeOk;
  }

  lemma HeadAsks(s: State)
    requires AsksOk(s)
    ensures AsksOk(Next(s, ApplyHead))
  {
    if Enabled(s, ApplyHead) {
      assert ItemAsks(s.gens.configs, s.ledger.acquired, s.local[0]);
      hide HelperAsks;
      hide ChangeOk;
    }
  }

  lemma CleanedUpAsks(s: State)
    requires AsksOk(s)
    ensures AsksOk(CleanedUp(s))
  {
    hide ItemAsks;
    hide HelperAsks;
    hide ChangeOk;
  }

  lemma FailedAsks(s: State, step: Step)
    requires AsksOk(s) && (step.SpawnLoad? || step.BuildFailed? || step.ApplyFailed?)
    ensures AsksOk(Next(s, step))
  {
    hide ChangeOk;
  }

  lemma BuiltAsks(s: State)
    requires AsksOk(s)
    ensures AsksOk(Next(s, BuildDone))
  {
    hide ChangeOk;
  }

  lemma AppliedAsks(s: State, hookRaises: bool)
    requires AsksOk(s)
    ensures AsksOk(Next(s, ApplyDone(hookRaises)))
  {
    if Enabled(s, ApplyDone(hookRaises)) {
      ReconfiguredAsks(s, s.worker.change, hookRaises);
      hide Reconfigured;
      AskedFor(s, Next(s, ApplyDone(hookRaises)));
    }
    hide AsksOk;
  }

  /** Installing leaves everything alone that holds a change. */
  lemma ReconfiguredAsks(s: State, change: Change, hookRaises: bool)
    requires s.setup.pipeline.Some?
    ensures var t := Reconfigured(s, change, hookRaises);
      && t.gens.configs == s.gens.configs && t.gens.settings == s.gens.settings && t.ledger.acquired == s.ledger.acquired
      && t.helpers == s.helpers && t.queue == s.queue && t.local == s.local && t.caller == s.caller && t.worker.Running?
  {
  }

  lemma AskedFor(s: State, t: State)
    requires AsksOk(s) && t.gens.configs == s.gens.configs && t.gens.settings == s.gens.settings
    requires t.ledger.acquired == s.ledger.acquired && t.helpers == s.helpers && t.queue == s.queue && t.local == s.local
    requires t.caller == s.caller && t.worker.Running?
    ensures AsksOk(t)
  {
    hide ChangeOk;
    hide HelperAsks;
    hide ItemAsks;
  }

  lemma NextKeepsAsks(s: State, step: Step)
    requires AsksOk(s)
    ensures AsksOk(Next(s, step))
  {
    hide AsksOk;
    match step
    case Start => hide Next; StartAsks(s);
    case UpdateRequest(_) => hide Next; RequestAsks(s, step);
    case ParseFirst(_, _) | CheckCurrent(_) => hide Next; PrepareAsks(s, step);
    case AcquireDone(h, ok) => hide Next; AcquiredAsks(s, h, ok);
    case QueueLoaded(_) | RejectLoad(_) => hide Next; QueueAsks(s, step);
    case TryStream(_, _) | RetryStream(_) | QueueStream(_) | SpawnStream => hide Next; StreamAsks(s, step);
    case FirstPrepared | TakeQueue | ReadIdentity => hide Next; WorkerAsks(s, step);
    case ApplyHead => hide Next; HeadAsks(s);
    case Exit | CleanUpUnstarted => hide CleanedUp; CleanedUpAsks(s);
    case SpawnLoad | BuildFailed | ApplyFailed => hide Next; FailedAsks(s, step);
    case BuildDone => hide Next; BuiltAsks(s);
    case ApplyDone(hookRaises) => hide Next; AppliedAsks(s, hookRaises);
    case _ => hide Next; CallerAsks(s, step);
  }

  // ---- what is installed belongs together ----------------------------------------------------------------

  /** The pipeline, its detector and the stream request come together, and the model key is that of the applied config. */
  predicate SetupOk(s: State) {
    var setup := s.setup;
    && (setup.streamWanted <==> setup.pipeline.Some?)
    && (setup.detector.Some? <==> setup.pipeline.Some?)
    && (setup.applied.Some? <==> setup.pipeline.Some?)
    && (setup.pipeline.Some? ==>
          && setup.key == Some(ModelKey(setup.applied.value))
          && setup.pipeline.value.useCase == setup.applied.value.settings.useCase
          && setup.detector.value < |s.ledger.acquired|
          && s.ledger.acquired[setup.detector.value] == ModelKey(setup.applied.value))
  }

  lemma HeadSetup(s: State)
    requires SetupOk(s)
    ensures SetupOk(Next(s, ApplyHead))
  {
  }

  lemma BuiltSetup(s: State)
    requires SetupOk(s) && AsksOk(s)
    ensures SetupOk(Next(s, BuildDone))
  {
  }

  lemma AppliedSetup(s: State, hookRaises: bool)
    requires SetupOk(s) && AsksOk(s)
    ensures SetupOk(Next(s, ApplyDone(hookRaises)))
  {
  }

  lemma AcquiredSetup(s: State, h: nat, ok: bool)
    requires SetupOk(s)
    ensures SetupOk(Next(s, AcquireDone(h, ok)))
  {
  }

  lemma NextKeepsSetup(s: State, step: Step)
    requires SetupOk(s) && AsksOk(s)
    ensures SetupOk(Next(s, step))
  {
    NextFramed(s, step);
    hide Next;
    hide AsksOk;
    match step
    case ApplyHead => HeadSetup(s);
    case BuildDone => BuiltSetup(s);
    case ApplyDone(hookRaises) => AppliedSetup(s, hookRaises);
    case AcquireDone(h, ok) => AcquiredSetup(s, h, ok);
    case _ =>
  }

  // ---- versions -------------------------------------------------------------------------------------------

  /** The rejected versions are those known from before and those reported, each reported once. */
  ghost predicate VersionsOk(v: Versions) {
    && Distinct(v.sent)
    && (forall x :: x in v.rejected <==> x in v.seeded || x in v.sent)
    && (forall x :: x in v.sent ==> x !in v.seeded)
    && v.loadFailed <= v.rejected
  }

  lemma RejectedVersionOk(v: Versions, version: int, loadError: bool)
    requires VersionsOk(v)
    ensures VersionsOk(VersionRejected(v, version, loadError))
  {
  }

  /** A step rejects at most one version, or forgets one failed load. */
  ghost predicate VersionStep(s: State, t: State) {
    || t.versions == s.versions
    || (t.versions == s.versions.(loadFailed := t.versions.loadFailed) && t.versions.loadFailed <= s.versions.loadFailed)
    || (exists version, loadError :: t.versions == VersionRejected(s.versions, version, loadError))
  }

  lemma CallerVersions(s: State, step: Step)
    requires step.UpdateEnter? || step.UpdateRequest?
    ensures VersionStep(s, Next(s, step))
  {
    hide VersionRejected;
    assert step.UpdateRequest? && Enabled(s, step) ==>
        Next(s, step).versions == s.versions
        || Next(s, step).versions == VersionRejected(s.versions, s.config.settings.version, false);
  }

  lemma HelperVersions(s: State, step: Step)
    requires step.ParseFirst? || step.RejectLoad?
    ensures VersionStep(s, Next(s, step))
  {
    hide VersionRejected;
    if Enabled(s, step) {
      var version := s.helpers[step.helper].change.config.settings.version;
      assert Next(s, step).versions == s.versions
        || Next(s, step).versions == VersionRejected(s.versions, version, step.RejectLoad?);
    }
  }

  lemma WorkerVersions(s: State, step: Step)
    requires step.BuildFailed? || step.ApplyFailed?
    ensures VersionStep(s, Next(s, step))
  {
    hide VersionRejected;
    if Enabled(s, step) {
      assert Next(s, step).versions == s.versions
        || Next(s, step).versions == VersionRejected(s.versions, s.worker.change.config.settings.version, false);
    }
  }

  lemma NextVersions(s: State, step: Step)
    ensures VersionStep(s, Next(s, step))
  {
    NextFramed(s, step);
    hide Next;
    match step
    case UpdateEnter(_) | UpdateRequest(_) => CallerVersions(s, step);
    case ParseFirst(_, _) | RejectLoad(_) => HelperVersions(s, step);
    case BuildFailed | ApplyFailed => WorkerVersions(s, step);
    case _ =>
  }

  lemma NextKeepsVersions(s: State, step: Step)
    requires VersionsOk(s.versions)
    ensures VersionsOk(Next(s, step).versions)
    ensures s.versions.rejected <= Next(s, step).versions.rejected
    ensures Next(s, step).versions.seeded == s.versions.seeded
  {
    NextVersions(s, step);
    var t := Next(s, step);
    hide Next;
    if version, loadError :| t.versions == VersionRejected(s.versions, version, loadError) {
      RejectedVersionOk(s.versions, version, loadError);
    }
  }

  // ---- fates ----------------------------------------------------------------------------------------------

  /** The generation applied last, 0 for none. */
  function LastApplied(retired: seq<Retired>): nat {
    if retired == [] then 0
    else
      var last := retired[|retired| - 1];
      if last.fate.Applied? then last.gen else LastApplied(retired[..|retired| - 1])
  }

  /** Each generation applied is newer than the ones applied before. */
  predicate AppliedInOrder(retired: seq<Retired>) {
    retired != [] ==>
      var front, last := retired[..|retired| - 1], retired[|retired| - 1];
      AppliedInOrder(front) && (last.fate.Applied? ==> last.gen > LastApplied(front))
  }

  predicate Settles(fate: Fate) {
    fate.Applied? || fate.Rejected?
  }

  /** The newest generation that was applied or rejected, 0 for none. */
  function NewestSettled(retired: seq<Retired>): nat {
    if retired == [] then 0
    else
      var before, last := NewestSettled(retired[..|retired| - 1]), retired[|retired| - 1];
      if Settles(last.fate) && last.gen > before then last.gen else before
  }

  /** A dropped generation was superseded, or the worker was stopping; a rejected one left its version on record. */
  predicate FateOk(s: State, r: Retired) {
    && (r.fate.Dropped? ==> r.gen < s.gens.settings || s.stopping)
    && (r.fate.Rejected? ==>
          1 <= r.gen <= |s.gens.configs| && s.gens.configs[r.gen - 1].settings.version in s.versions.rejected)
  }

  ghost predicate AllFatesOk(s: State) {
    forall i | 0 <= i < |s.gens.retired| :: FateOk(s, s.gens.retired[i])
  }

  /** The generation the worker thread is about to install, 0 for none. */
  function InHand(s: State): nat {
    if s.worker.Checked? || s.worker.Building? then s.worker.change.gen else 0
  }

  predicate AppliedIsLast(s: State) {
    var last := LastApplied(s.gens.retired);
    && last <= |s.gens.configs|
    && s.setup.applied == if last == 0 then None else Some(s.gens.configs[last - 1])
  }

  ghost predicate FatesOk(s: State) {
    && AllFatesOk(s) && AppliedInOrder(s.gens.retired) && AppliedIsLast(s)
    && s.gens.settled == NewestSettled(s.gens.retired) && s.gens.settled <= s.gens.settings
    && (InHand(s) > 0 ==> InHand(s) > LastApplied(s.gens.retired))
  }

  /** Generations, rejected versions and the stop request only grow. */
  ghost predicate Later(s: State, t: State) {
    && s.gens.settings <= t.gens.settings && s.gens.configs <= t.gens.configs
    && s.versions.rejected <= t.versions.rejected && (s.stopping ==> t.stopping)
  }

  lemma FatesStay(s: State, t: State)
    requires AllFatesOk(s) && Later(s, t)
    ensures forall i | 0 <= i < |s.gens.retired| :: FateOk(t, s.gens.retired[i])
  {
    forall i | 0 <= i < |s.gens.retired|
      ensures FateOk(t, s.gens.retired[i])
    {
      assert FateOk(s, s.gens.retired[i]);
    }
  }

  /** A step that retires nothing. */
  predicate RetiresNothing(s: State, t: State) {
    && t.gens.retired == s.gens.retired && t.gens.settled == s.gens.settled && t.setup.applied == s.setup.applied
    && (InHand(t) == 0 || InHand(t) == InHand(s))
  }

  /** A step that retires one generation. */
  predicate RetiresOne(s: State, t: State, r: Retired) {
    && t.gens.retired == s.gens.retired + [r] && FateOk(t, r)
    && t.gens.settled == (if Settles(r.fate) && r.gen > s.gens.settled then r.gen else s.gens.settled)
    && (Settles(r.fate) ==> r.gen <= t.gens.settings)
    && (if r.fate.Applied?
        then InHand(s) == r.gen && InHand(t) == 0 && 1 <= r.gen <= |t.gens.configs|
          && t.setup.applied == Some(t.gens.configs[r.gen - 1])
        else t.setup.applied == s.setup.applied && (InHand(t) == 0 || InHand(t) == InHand(s)))
  }

  lemma RetiresNothingKeeps(s: State, t: State)
    requires FatesOk(s) && Later(s, t) && RetiresNothing(s, t)
    ensures FatesOk(t)
  {
    FatesStay(s, t);
    hide FateOk;
  }

  lemma RetiresOneKeeps(s: State, t: State, r: Retired)
    requires FatesOk(s) && Later(s, t) && RetiresOne(s, t, r)
    ensures FatesOk(t)
  {
    FatesStay(s, t);
    hide FateOk;
    assert t.gens.retired[..|t.gens.retired| - 1] == s.gens.retired;
  }

  lemma CallerRetires(s: State, step: Step)
    requires step.Start? || step.Stop? || step.UpdateEnter? || step.UpdateApply? || step.UpdateSpawnStream?
      || step.UpdateRequest?
    ensures RetiresNothing(s, Next(s, step))
  {
  }

  lemma StreamRetires(s: State, step: Step)
    requires step.AcquireDone? || step.TryStream? || step.RetryStream? || step.QueueStream?
    ensures RetiresNothing(s, Next(s, step))
  {
  }

  lemma WorkerRetires(s: State, step: Step)
    requires step.FirstPrepared? || step.TakeQueue? || step.ReadIdentity? || step.SpawnStream?
    ensures RetiresNothing(s, Next(s, step))
  {
  }

  /** Retires nothing, or the generation `gen`. */
  predicate RetiresAtMost(s: State, t: State, gen: nat) {
    RetiresNothing(s, t) || (exists fate {:trigger Retired(gen, fate)} :: RetiresOne(s, t, Retired(gen, fate)))
  }

  lemma SpawnRetires(s: State, step: Step)
    requires AsksOk(s) && Enabled(s, step) && (step.UpdateSpawnLoad? || step.SpawnLoad?)
    ensures RetiresAtMost(s, Next(s, step), if step.SpawnLoad? then s.worker.change.gen else s.caller.change.gen)
  {
    var gen := if step.SpawnLoad? then s.worker.change.gen else s.caller.change.gen;
    if s.stopping {
      assert RetiresOne(s, Next(s, step), Retired(gen, Dropped));
    } else {
      assert RetiresNothing(s, Next(s, step));
    }
  }

  lemma CheckRetires(s: State, step: Step)
    requires AsksOk(s) && Enabled(s, step) && (step.CheckCurrent? || step.QueueLoaded?)
    ensures RetiresAtMost(s, Next(s, step), s.helpers[step.helper].change.gen)
  {
    var change := s.helpers[step.helper].change;
    assert HelperAsks(s.gens.configs, s.ledger.acquired, s.helpers[step.helper]);
    if IsCurrent(s, change) {
      assert RetiresNothing(s, Next(s, step));
    } else {
      assert RetiresOne(s, Next(s, step), Retired(change.gen, Dropped));
    }
  }

  /** A rejection, once the holder let go of the change. */
  lemma RejectRetires(s: State, u: State, change: Change, loadError: bool)
    requires ChangeOk(s.gens.configs, s.ledger.acquired, change) && |s.gens.configs| == s.gens.settings
    requires s.gens.settled <= s.gens.settings
    requires u.gens == s.gens && u.versions == s.versions && u.stopping == s.stopping && u.setup == s.setup
    requires InHand(u) == 0 || InHand(u) == InHand(s)
    ensures RetiresAtMost(s, Reject(u, change.config, Some(change.gen), loadError), change.gen)
  {
    var t := Reject(u, change.config, Some(change.gen), loadError);
    if Superseded(u, Some(change.gen)) {
      assert RetiresOne(s, t, Retired(change.gen, Dropped));
    } else {
      assert change.config.settings.version in t.versions.rejected;
      assert RetiresOne(s, t, Retired(change.gen, Rejected));
    }
  }

  lemma HelperRejects(s: State, step: Step)
    requires AsksOk(s) && s.gens.settled <= s.gens.settings && Enabled(s, step)
    requires step.ParseFirst? || step.RejectLoad?
    ensures RetiresAtMost(s, Next(s, step), s.helpers[step.helper].change.gen)
  {
    var h := step.helper;
    assert HelperAsks(s.gens.configs, s.ledger.acquired, s.helpers[h]);
    if step.ParseFirst? && step.ok {
      assert RetiresNothing(s, Next(s, step));
    } else {
      RejectRetires(s, SetHelper(s, h, Ended), s.helpers[h].change, step.RejectLoad?);
      hide RetiresAtMost;
      hide Reject;
    }
  }

  lemma WorkerRejects(s: State, step: Step)
    requires AsksOk(s) && s.gens.settled <= s.gens.settings && Enabled(s, step)
    requires step.BuildFailed? || step.ApplyFailed?
    ensures RetiresAtMost(s, Next(s, step), s.worker.change.gen)
  {
    var change := s.worker.change;
    RejectRetires(s, Release(s.(worker := Running), change.detector), change, false);
    hide RetiresAtMost;
    hide Reject;
  }

  lemma GiveBackIs(s: State)
    ensures GiveBack(s) == s.(ledger := GiveBack(s).ledger) && GiveBack(s).ledger.acquired == s.ledger.acquired
  {
  }

  lemma BuiltRetires(s: State)
    requires AsksOk(s) && Enabled(s, BuildDone)
    ensures RetiresOne(s, Next(s, BuildDone), Retired(s.worker.change.gen, Applied))
  {
    GiveBackIs(s);
    hide GiveBack;
  }

  function ReconfigureFate(s: State, hookRaises: bool): Fate
    requires s.worker.Checked?
  {
    if hookRaises && s.worker.change.detector.Some? then Crashed else Applied
  }

  lemma HookRetires(s: State)
    requires AsksOk(s) && SetupOk(s) && Enabled(s, ApplyDone(true)) && s.worker.change.detector.Some?
    ensures RetiresOne(s, HookRaised(s, s.worker.change), Retired(s.worker.change.gen, Crashed))
  {
  }

  lemma SwapRetires(s: State)
    requires AsksOk(s) && SetupOk(s) && Enabled(s, ApplyDone(false)) && s.worker.change.detector.Some?
    ensures RetiresOne(s, ModelSwapped(s, s.worker.change), Retired(s.worker.change.gen, Applied))
  {
  }

  lemma PlainRetires(s: State)
    requires AsksOk(s) && SetupOk(s) && Enabled(s, ApplyDone(false)) && s.worker.change.detector.None?
    ensures RetiresOne(s, MarkApplied(s.(worker := Running), s.worker.change), Retired(s.worker.change.gen, Applied))
  {
  }

  lemma AppliedRetires(s: State, hookRaises: bool)
    requires AsksOk(s) && SetupOk(s) && Enabled(s, ApplyDone(hookRaises))
    ensures RetiresOne(s, Next(s, ApplyDone(hookRaises)), Retired(s.worker.change.gen, ReconfigureFate(s, hookRaises)))
  {
    if s.worker.change.detector.Some? {
      if hookRaises {
        HookRetires(s);
      } else {
        SwapRetires(s);
      }
      hide HookRaised;
      hide ModelSwapped;
    } else {
      PlainRetires(s);
      hide MarkApplied;
    }
    hide RetiresOne;
  }

  // ---- taking a change in hand ----------------------------------------------------------------------------

  lemma {:induction false} LastAppliedRetired(retired: seq<Retired>)
    requires LastApplied(retired) > 0
    ensures Count(OfGen(LastApplied(retired)), retired) > 0
  {
    if !retired[|retired| - 1].fate.Applied? {
      LastAppliedRetired(retired[..|retired| - 1]);
    }
  }

  /** A change in flight is newer than the last one applied, if it is the newest. */
  lemma NewestIsAheadOfApplied(s: State, g: nat)
    requires OneFateEach(s) && g == s.gens.settings && InFlight(s, Asked(g)) > 0
    ensures LastApplied(s.gens.retired) < g
  {
    var last := LastApplied(s.gens.retired);
    assert InFlight(s, Asked(g)) + TimesRetired(s, g) <= 1;
    assert InFlight(s, Asked(last)) + TimesRetired(s, last) == One(1 <= last <= s.gens.settings);
    if last > 0 {
      LastAppliedRetired(s.gens.retired);
    } else {
      assert InFlight(s, Asked(g)) + TimesRetired(s, g) == One(1 <= g <= s.gens.settings);
    }
  }

  lemma HeadShape(s: State)
    requires Enabled(s, ApplyHead) && AsksOk(s) && s.local[0].Settings?
    ensures var change, t := s.local[0].change, Next(s, ApplyHead);
      if IsCurrent(s, change)
      then t.gens == s.gens && t.setup == s.setup && InHand(t) == change.gen && change.gen == s.gens.settings
      else RetiresOne(s, t, Retired(change.gen, Dropped))
  {
    assert ItemAsks(s.gens.configs, s.ledger.acquired, s.local[0]);
  }

  lemma OtherHeadShape(s: State)
    requires Enabled(s, ApplyHead) && !s.local[0].Settings?
    ensures RetiresNothing(s, Next(s, ApplyHead))
  {
  }

  lemma HeadKeepsFates(s: State)
    requires FatesOk(s) && AsksOk(s) && OneFateEach(s) && Enabled(s, ApplyHead)
    requires Later(s, Next(s, ApplyHead))
    ensures FatesOk(Next(s, ApplyHead))
  {
    var t := Next(s, ApplyHead);
    if !s.local[0].Settings? {
      OtherHeadShape(s);
      hide *;
      RetiresNothingKeeps(s, t);
    } else {
      var change := s.local[0].change;
      HeadShape(s);
      if IsCurrent(s, change) {
        CountAt(ItemMarked(Asked(change.gen)), s.local, 0);
        assert InFlight(s, Asked(change.gen)) > 0;
        NewestIsAheadOfApplied(s, change.gen);
        FatesStay(s, t);
        hide Next;
        hide FateOk;
      } else {
        hide *;
        RetiresOneKeeps(s, t, Retired(change.gen, Dropped));
      }
    }
  }

  // ---- the clean-up ---------------------------------------------------------------------------------------

  lemma {:induction false} AppendDrops(retired: seq<Retired>, items: seq<Item>)
    ensures var all := retired + DropsOf(items);
      && LastApplied(all) == LastApplied(retired) && NewestSettled(all) == NewestSettled(retired)
      && (AppliedInOrder(retired) ==> AppliedInOrder(all))
    ensures forall r :: r in DropsOf(items) ==> r.fate.Dropped?
  {
    if items == [] {
      assert retired + DropsOf(items) == retired;
    } else {
      var front, last := items[..|items| - 1], ItemGen(items[|items| - 1]);
      AppendDrops(retired, front);
      if last.Some? {
        var r := Retired(last.value, Dropped);
        assert retired + DropsOf(items) == (retired + DropsOf(front)) + [r];
        assert ((retired + DropsOf(front)) + [r])[..|retired + DropsOf(front)|] == retired + DropsOf(front);
      } else {
        assert DropsOf(items) == DropsOf(front);
      }
    }
  }

  lemma CleanedUpKeepsFates(s: State, t: State)
    requires FatesOk(s) && Later(s, t) && t.stopping && InHand(t) == 0 && t.setup.applied == s.setup.applied
    requires t.gens == s.gens.(retired := s.gens.retired + DropsOf(s.queue))
    ensures FatesOk(t)
  {
    AppendDrops(s.gens.retired, s.queue);
    FatesStay(s, t);
    forall i | 0 <= i < |t.gens.retired|
      ensures FateOk(t, t.gens.retired[i])
    {
      if i >= |s.gens.retired| {
        assert t.gens.retired[i] == DropsOf(s.queue)[i - |s.gens.retired|];
        assert t.gens.retired[i] in DropsOf(s.queue);
      } else {
        assert t.gens.retired[i] == s.gens.retired[i];
      }
    }
  }

  lemma CleanedUpSetup(s: State)
    ensures CleanedUp(s).setup == s.setup
  {
  }

  lemma NextIsLater(s: State, step: Step)
    requires VersionsOk(s.versions)
    ensures Later(s, Next(s, step))
  {
    NextKeepsVersions(s, step);
    NextFramed(s, step);
    if step.Start? {
      StartedConfigs(s);
    } else if step.UpdateRequest? && Enabled(s, step) {
      RequestedConfigs(s, step.parses);
    }
    hide Next;
  }

  lemma StartedConfigs(s: State)
    ensures s.gens.configs <= Started(s).gens.configs && s.gens.settings <= Started(s).gens.settings
  {
  }

  lemma RequestedConfigs(s: State, parses: bool)
    requires s.caller.SettingsDue?
    ensures s.gens.configs <= UpdateRequested(s, parses).gens.configs
    ensures s.gens.settings <= UpdateRequested(s, parses).gens.settings
  {
  }

  lemma RetiresAtMostKeeps(s: State, t: State, gen: nat)
    requires FatesOk(s) && Later(s, t) && RetiresAtMost(s, t, gen)
    ensures FatesOk(t)
  {
    if RetiresNothing(s, t) {
      RetiresNothingKeeps(s, t);
    } else {
      var fate :| RetiresOne(s, t, Retired(gen, fate));
      RetiresOneKeeps(s, t, Retired(gen, fate));
    }
  }

  lemma RejectingKeepsFates(s: State, step: Step)
    requires FatesOk(s) && AsksOk(s) && Enabled(s, step) && Later(s, Next(s, step))
    requires step.ParseFirst? || step.RejectLoad? || step.BuildFailed? || step.ApplyFailed?
    ensures FatesOk(Next(s, step))
  {
    var t := Next(s, step);
    assert s.gens.settled <= s.gens.settings;
    if step.ParseFirst? || step.RejectLoad? {
      HelperRejects(s, step);
      hide *;
      RetiresAtMostKeeps(s, t, s.helpers[step.helper].change.gen);
    } else {
      WorkerRejects(s, step);
      hide *;
      RetiresAtMostKeeps(s, t, s.worker.change.gen);
    }
  }

  lemma HandingKeepsFates(s: State, step: Step)
    requires FatesOk(s) && AsksOk(s) && Enabled(s, step) && Later(s, Next(s, step))
    requires step.UpdateSpawnLoad? || step.SpawnLoad? || step.CheckCurrent? || step.QueueLoaded?
    ensures FatesOk(Next(s, step))
  {
    var t := Next(s, step);
    if step.UpdateSpawnLoad? || step.SpawnLoad? {
      SpawnRetires(s, step);
      hide *;
      RetiresAtMostKeeps(s, t, if step.SpawnLoad? then s.worker.change.gen else s.caller.change.gen);
    } else {
      CheckRetires(s, step);
      hide *;
      RetiresAtMostKeeps(s, t, s.helpers[step.helper].change.gen);
    }
  }

  lemma InstallKeepsFates(s: State, step: Step)
    requires FatesOk(s) && AsksOk(s) && SetupOk(s) && Enabled(s, step) && Later(s, Next(s, step))
    requires step.BuildDone? || step.ApplyDone?
    ensures FatesOk(Next(s, step))
  {
    var t := Next(s, step);
    if step.BuildDone? {
      BuiltRetires(s);
      hide *;
      RetiresOneKeeps(s, t, Retired(s.worker.change.gen, Applied));
    } else {
      AppliedRetires(s, step.hookRaises);
      hide *;
      RetiresOneKeeps(s, t, Retired(s.worker.change.gen, ReconfigureFate(s, step.hookRaises)));
    }
  }

  lemma CleanUpKeepsFates(s: State)
    requires FatesOk(s) && Later(s, CleanedUp(s))
    ensures FatesOk(CleanedUp(s))
  {
    CleanedUpShape(s);
    CleanedUpSetup(s);
    hide FatesOk;
    hide CleanedUp;
    CleanedUpKeepsFates(s, CleanedUp(s));
  }

  lemma RetiringNothingKeepsFates(s: State, step: Step)
    requires FatesOk(s) && Later(s, Next(s, step))
    requires !step.ParseFirst? && !step.RejectLoad? && !step.BuildFailed? && !step.ApplyFailed? && !step.UpdateSpawnLoad?
      && !step.SpawnLoad? && !step.CheckCurrent? && !step.QueueLoaded? && !step.BuildDone? && !step.ApplyDone?
      && !step.ApplyHead? && !step.Exit? && !step.CleanUpUnstarted?
    ensures FatesOk(Next(s, step))
  {
    hide FatesOk;
    hide Next;
    if step.AcquireDone? || step.TryStream? || step.RetryStream? || step.QueueStream? {
      StreamRetires(s, step);
    } else if step.FirstPrepared? || step.TakeQueue? || step.ReadIdentity? || step.SpawnStream? {
      WorkerRetires(s, step);
    } else {
      CallerRetires(s, step);
    }
    hide RetiresNothing;
    RetiresNothingKeeps(s, Next(s, step));
  }

  lemma NextKeepsFates(s: State, step: Step)
    requires FatesOk(s) && AsksOk(s) && SetupOk(s) && OneFateEach(s) && VersionsOk(s.versions)
    ensures FatesOk(Next(s, step))
  {
    if Enabled(s, step) {
      NextIsLater(s, step);
      hide FatesOk;
      hide Later;
      match step
      case UpdateSpawnLoad | SpawnLoad | CheckCurrent(_) | QueueLoaded(_) => hide Next; HandingKeepsFates(s, step);
      case ParseFirst(_, _) | RejectLoad(_) | BuildFailed | ApplyFailed => hide Next; RejectingKeepsFates(s, step);
      case BuildDone | ApplyDone(_) => hide Next; InstallKeepsFates(s, step);
      case ApplyHead => hide Next; HeadKeepsFates(s);
      case Exit | CleanUpUnstarted => hide CleanedUp; CleanUpKeepsFates(s);
      case _ => hide Next; RetiringNothingKeepsFates(s, step);
    }
  }

  // ---- the newest config was asked for --------------------------------------------------------------------

  /** update() has yet to request the settings of the newest config. */
  predicate RequestDue(s: State) {
    s.caller.SettingsDue? || (s.caller.StreamDue? && s.caller.settingsToo)
  }

  /** The newest generation is for the settings of the newest config, unless its version was rejected. */
  predicate TargetOk(s: State) {
    && |s.gens.configs| == s.gens.settings
    && (s.gens.settings > 0 || s.worker.NotStarted? || s.worker.Exited?)
    && (s.gens.settings > 0 && !s.stopping && !RequestDue(s) ==>
          || s.config.settings == s.gens.configs[s.gens.settings - 1].settings
          || s.config.settings.version in s.versions.rejected)
  }

  /** The newest stream generation is for the source of the newest config. */
  predicate SourceOk(s: State) {
    && |s.gens.sources| == s.gens.stream
    && (s.setup.streamWanted ==> s.gens.stream > 0 && s.gens.sources[s.gens.stream - 1] == s.config.stream)
  }

  /** The pipeline has the newest identity, or the change is queued. */
  predicate IdentityOk(s: State) {
    && (s.setup.pipeline.Some? && !s.stopping ==>
          s.setup.pipeline.value.identity == s.config.identity || Identity in s.queue || Identity in s.local)
    && (s.worker.Building? && !s.stopping ==> s.worker.identity == s.config.identity || Identity in s.queue)
  }

  predicate NewestOk(s: State) {
    TargetOk(s) && SourceOk(s) && IdentityOk(s)
  }

  lemma CallerNewest(s: State, step: Step)
    requires NewestOk(s)
    requires step.Start? || step.Stop? || step.UpdateEnter? || step.UpdateSpawnStream? || step.UpdateSpawnLoad?
    ensures NewestOk(Next(s, step))
  {
  }

  lemma UpdateNewest(s: State)
    requires NewestOk(s)
    ensures NewestOk(Next(s, UpdateApply))
  {
  }

  lemma RequestNewest(s: State, parses: bool)
    requires NewestOk(s)
    ensures NewestOk(Next(s, UpdateRequest(parses)))
  {
  }

  lemma HelperNewest(s: State, step: Step)
    requires NewestOk(s) && (step.CheckCurrent? || step.AcquireDone?)
    ensures NewestOk(Next(s, step))
  {
  }

  lemma ParsedNewest(s: State, h: nat, ok: bool)
    requires NewestOk(s)
    ensures NewestOk(Next(s, ParseFirst(h, ok)))
  {
  }

  lemma QueueNewest(s: State, step: Step)
    requires NewestOk(s) && (step.QueueLoaded? || step.RejectLoad? || step.QueueStream?)
    ensures NewestOk(Next(s, step))
  {
  }

  lemma StreamNewest(s: State, step: Step)
    requires NewestOk(s) && (step.TryStream? || step.RetryStream? || step.SpawnStream?)
    ensures NewestOk(Next(s, step))
  {
  }

  lemma WorkerNewest(s: State, step: Step)
    requires NewestOk(s) && (step.FirstPrepared? || step.TakeQueue? || step.SpawnLoad? || step.ReadIdentity?)
    ensures NewestOk(Next(s, step))
  {
  }

  lemma HeadNewest(s: State)
    requires NewestOk(s)
    ensures NewestOk(Next(s, ApplyHead))
  {
  }

  lemma FailedNewest(s: State, step: Step)
    requires NewestOk(s) && (step.BuildFailed? || step.ApplyFailed?)
    ensures NewestOk(Next(s, step))
  {
  }

  lemma BuiltNewest(s: State)
    requires NewestOk(s)
    ensures NewestOk(Next(s, BuildDone))
  {
  }

  /** What the newest config depends on stays, but for the worker's own step. */
  predicate NewestFramed(s: State, t: State) {
    && t.config == s.config && t.queue == s.queue && t.local == s.local && t.stopping == s.stopping
    && t.caller == s.caller && t.versions == s.versions && t.worker.Running?
    && t.gens == s.gens.(settled := t.gens.settled, retired := t.gens.retired)
    && t.setup.streamWanted == s.setup.streamWanted && t.setup.pipeline.Some? && s.setup.pipeline.Some?
    && t.setup.pipeline.value.identity == s.setup.pipeline.value.identity
  }

  lemma NewestFramedKeeps(s: State, t: State)
    requires NewestOk(s) && NewestFramed(s, t) && !s.worker.NotStarted? && !s.worker.Exited?
    ensures NewestOk(t)
  {
  }

  lemma ReconfiguredFramed(s: State, change: Change, hookRaises: bool)
    requires s.setup.pipeline.Some?
    ensures NewestFramed(s, Reconfigured(s, change, hookRaises))
  {
    if change.detector.Some? {
      if hookRaises {
        HookFramed(s, change);
      } else {
        SwapFramed(s, change);
      }
      hide HookRaised;
      hide ModelSwapped;
    }
  }

  lemma HookFramed(s: State, change: Change)
    requires s.setup.pipeline.Some? && change.detector.Some?
    ensures NewestFramed(s, HookRaised(s, change))
  {
  }

  lemma SwapFramed(s: State, change: Change)
    requires s.setup.pipeline.Some? && change.detector.Some?
    ensures NewestFramed(s, ModelSwapped(s, change))
  {
  }

  lemma AppliedNewest(s: State, hookRaises: bool)
    requires NewestOk(s)
    ensures NewestOk(Next(s, ApplyDone(hookRaises)))
  {
    if Enabled(s, ApplyDone(hookRaises)) {
      hide NewestOk;
      hide Reconfigured;
      ReconfiguredFramed(s, s.worker.change, hookRaises);
      NewestFramedKeeps(s, Next(s, ApplyDone(hookRaises)));
    }
  }

  lemma CleanedUpNewest(s: State)
    requires NewestOk(s)
    ensures NewestOk(CleanedUp(s))
  {
  }

  lemma NextKeepsNewest(s: State, step: Step)
    requires NewestOk(s)
    ensures NewestOk(Next(s, step))
  {
    hide NewestOk;
    match step
    case UpdateApply => hide Next; UpdateNewest(s);
    case UpdateRequest(parses) => hide Next; RequestNewest(s, parses);
    case ParseFirst(h, ok) => hide Next; ParsedNewest(s, h, ok);
    case CheckCurrent(_) | AcquireDone(_, _) => hide Next; HelperNewest(s, step);
    case QueueLoaded(_) | RejectLoad(_) | QueueStream(_) => hide Next; QueueNewest(s, step);
    case TryStream(_, _) | RetryStream(_) | SpawnStream => hide Next; StreamNewest(s, step);
    case FirstPrepared | TakeQueue | SpawnLoad | ReadIdentity => hide Next; WorkerNewest(s, step);
    case ApplyHead => hide Next; HeadNewest(s);
    case BuildFailed | ApplyFailed => hide Next; FailedNewest(s, step);
    case BuildDone => hide Next; BuiltNewest(s);
    case ApplyDone(hookRaises) => hide Next; AppliedNewest(s, hookRaises);
    case Exit | CleanUpUnstarted => hide CleanedUp; CleanedUpNewest(s);
    case _ => hide Next; CallerNewest(s, step);
  }

  // ---- every run ------------------------------------------------------------------------------------------

  ghost predicate Inv(s: State) {
    && OneFateEach(s) && StreamComes(s) && AsksOk(s) && SetupOk(s) && VersionsOk(s.versions)
    && FatesOk(s) && NewestOk(s)
  }

  lemma TracesStay(s: State, step: Step)
    requires OneFateEach(s) && StreamComes(s) && SetupOk(s)
    ensures OneFateEach(Next(s, step)) && StreamComes(Next(s, step))
  {
    if Enabled(s, step) {
      assert WantedWithPipeline(s);
      hide *;
      NextTraced(s, step);
      TracedKeeps(s, Next(s, step));
    }
  }

  lemma NextKeepsInv(s: State, step: Step)
    requires Inv(s)
    ensures Inv(Next(s, step))
  {
    hide Next;
    hide OneFateEach;
    hide StreamComes;
    hide AsksOk;
    hide SetupOk;
    hide VersionsOk;
    hide FatesOk;
    hide NewestOk;
    TracesStay(s, step);
    NextKeepsAsks(s, step);
    NextKeepsSetup(s, step);
    NextKeepsVersions(s, step);
    NextKeepsFates(s, step);
    NextKeepsNewest(s, step);
  }

  lemma {:induction false} RunKeepsInv(config: Config, seeded: set<int>, steps: seq<Step>)
    ensures Inv(Run(config, seeded, steps))
  {
    if steps == [] {
      NewWorkerIsSound(config, seeded);
    } else {
      RunKeepsInv(config, seeded, steps[..|steps| - 1]);
      hide Inv;
      NextKeepsInv(Run(config, seeded, steps[..|steps| - 1]), steps[|steps| - 1]);
    }
  }

  lemma NewWorkerIsSound(config: Config, seeded: set<int>)
    ensures Inv(NewWorker(config, seeded))
  {
  }

  // ---- what every run guarantees --------------------------------------------------------------------------

  /** Each generation taken is in flight in one place or met its fate once, over every interleaving. */
  lemma OneFate(config: Config, seeded: set<int>, steps: seq<Step>, g: nat)
    ensures var s := Run(config, seeded, steps);
      InFlight(s, Asked(g)) + TimesRetired(s, g) == One(1 <= g <= s.gens.settings)
  {
    RunKeepsInv(config, seeded, steps);
    hide Run;
  }

  lemma {:induction false} AppliedUpTo(retired: seq<Retired>, i: nat)
    requires AppliedInOrder(retired) && i < |retired| && retired[i].fate.Applied?
    ensures retired[i].gen <= LastApplied(retired)
  {
    if i < |retired| - 1 {
      AppliedUpTo(retired[..|retired| - 1], i);
    }
  }

  lemma {:induction false} InOrder(retired: seq<Retired>, i: nat, j: nat)
    requires AppliedInOrder(retired) && i < j < |retired| && retired[i].fate.Applied? && retired[j].fate.Applied?
    ensures retired[i].gen < retired[j].gen
  {
    var front := retired[..|retired| - 1];
    if j == |retired| - 1 {
      AppliedUpTo(front, i);
    } else {
      InOrder(front, i, j);
    }
  }

  /** The settings that run only ever get newer. */
  lemma AppliedGenerationsIncrease(config: Config, seeded: set<int>, steps: seq<Step>, i: nat, j: nat)
    requires var retired := Run(config, seeded, steps).gens.retired;
      i < j < |retired| && retired[i].fate.Applied? && retired[j].fate.Applied?
    ensures var retired := Run(config, seeded, steps).gens.retired;
      retired[i].gen < retired[j].gen
  {
    RunKeepsInv(config, seeded, steps);
    var retired := Run(config, seeded, steps).gens.retired;
    hide Run;
    InOrder(retired, i, j);
  }

  /**
   * A config_rejected event is sent once per version, and never for one reported before the restart; only a rejected
   * version's model is loaded again.
   */
  lemma RejectionsAreSentOnce(config: Config, seeded: set<int>, steps: seq<Step>)
    ensures var v := Run(config, seeded, steps).versions;
      && Distinct(v.sent)
      && (forall x :: x in v.sent ==> x !in seeded)
      && (forall x :: x in v.rejected <==> x in seeded || x in v.sent)
      && v.loadFailed <= v.rejected
  {
    RunKeepsInv(config, seeded, steps);
    SeededStays(config, seeded, steps);
    hide Run;
  }

  lemma {:induction false} SeededStays(config: Config, seeded: set<int>, steps: seq<Step>)
    ensures Run(config, seeded, steps).versions.seeded == seeded
  {
    if steps != [] {
      var front := steps[..|steps| - 1];
      SeededStays(config, seeded, front);
      RunKeepsInv(config, seeded, front);
      NextKeepsVersions(Run(config, seeded, front), steps[|steps| - 1]);
      hide Next;
    }
  }

  /** Until the pipeline's model hook raises, the pipeline runs a model loaded for the applied config. */
  lemma ModelFitsTheAppliedConfig(config: Config, seeded: set<int>, steps: seq<Step>)
    requires Run(config, seeded, steps).setup.pipeline.Some?
    requires Run(config, seeded, steps).ledger.hookRaises == 0 && !Run(config, seeded, steps).worker.Exited?
    ensures var s := Run(config, seeded, steps);
      && s.setup.applied.Some? && s.setup.pipeline.value.model < |s.ledger.acquired|
      && s.ledger.acquired[s.setup.pipeline.value.model] == ModelKey(s.setup.applied.value)
      && s.setup.pipeline.value.useCase == s.setup.applied.value.settings.useCase
  {
    RunKeepsInv(config, seeded, steps);
    WorkerOwnership.RunKeepsOwned(config, seeded, steps);
    var s := Run(config, seeded, steps);
    hide Run;
    assert WorkerOwnership.LossOk(s);
    assert !Diverged(s);
  }

  // ---- convergence ----------------------------------------------------------------------------------------

  predicate AllEnded(helpers: seq<Helper>) {
    forall h | 0 <= h < |helpers| :: helpers[h].Ended?
  }

  /** The worker runs and nothing is in flight: no call, no helper, nothing queued or taken from the queue. */
  predicate Quiescent(s: State) {
    && s.caller.NoCall? && s.worker.Running? && s.local == [] && s.queue == [] && AllEnded(s.helpers) && !s.stopping
  }

  lemma {:induction false} EndedCarryNothing(helpers: seq<Helper>, m: Mark)
    requires AllEnded(helpers)
    ensures Count(HelperMarked(m), helpers) == 0
  {
    if helpers != [] {
      EndedCarryNothing(helpers[..|helpers| - 1], m);
    }
  }

  lemma NothingInFlight(s: State, m: Mark)
    requires Quiescent(s)
    ensures InFlight(s, m) == 0
  {
    EndedCarryNothing(s.helpers, m);
  }

  lemma {:induction false} NewestSettledBounds(retired: seq<Retired>)
    ensures forall i | 0 <= i < |retired| && Settles(retired[i].fate) :: retired[i].gen <= NewestSettled(retired)
    ensures NewestSettled(retired) > 0 ==>
      exists i :: 0 <= i < |retired| && Settles(retired[i].fate) && retired[i].gen == NewestSettled(retired)
  {
    if retired != [] {
      var front, last := retired[..|retired| - 1], |retired| - 1;
      NewestSettledBounds(front);
      if NewestSettled(retired) > 0 {
        if Settles(retired[last].fate) && retired[last].gen > NewestSettled(front) {
          assert retired[last].gen == NewestSettled(retired);
        } else {
          var i :| 0 <= i < |front| && Settles(front[i].fate) && front[i].gen == NewestSettled(front);
          assert retired[i].gen == NewestSettled(retired);
        }
      }
    }
  }

  lemma {:induction false} RetiredOnce(retired: seq<Retired>, i: nat, j: nat, g: nat)
    requires i < j < |retired| && retired[i].gen == g && retired[j].gen == g
    ensures Count(OfGen(g), retired) >= 2
  {
    if j == |retired| - 1 {
      CountAt(OfGen(g), retired[..j], i);
    } else {
      RetiredOnce(retired[..|retired| - 1], i, j, g);
    }
  }

  /** In a quiescent state the newest generation has met its one fate, and was not dropped. */
  lemma NewestIsRetired(s: State) returns (i: nat)
    requires Inv(s) && Quiescent(s)
    ensures i < |s.gens.retired| && s.gens.retired[i].gen == s.gens.settings > 0 && !s.gens.retired[i].fate.Dropped?
    ensures forall j | 0 <= j < |s.gens.retired| && s.gens.retired[j].gen == s.gens.settings :: j == i
  {
    var g := s.gens.settings;
    NothingInFlight(s, Asked(g));
    assert g > 0;
    assert TimesRetired(s, g) == 1;
    i := CountSome(OfGen(g), s.gens.retired);
    assert FateOk(s, s.gens.retired[i]);
    forall j | 0 <= j < |s.gens.retired| && s.gens.retired[j].gen == g
      ensures j == i
    {
      if j < i {
        RetiredOnce(s.gens.retired, j, i, g);
      } else if i < j {
        RetiredOnce(s.gens.retired, i, j, g);
      }
    }
  }

  lemma SettledUnlessCrashed(s: State, i: nat)
    requires Inv(s) && Quiescent(s) && i < |s.gens.retired| && s.gens.retired[i].gen == s.gens.settings > 0
    requires !s.gens.retired[i].fate.Dropped?
    requires forall j | 0 <= j < |s.gens.retired| && s.gens.retired[j].gen == s.gens.settings :: j == i
    ensures s.gens.settled == s.gens.settings <==> !s.gens.retired[i].fate.Crashed?
  {
    NewestSettledBounds(s.gens.retired);
    assert s.gens.settled == NewestSettled(s.gens.retired);
  }

  lemma NewestIsInForce(s: State, i: nat)
    requires Inv(s) && Quiescent(s) && i < |s.gens.retired| && s.gens.retired[i].gen == s.gens.settings > 0
    requires s.gens.retired[i].fate.Applied? || s.gens.retired[i].fate.Rejected?
    ensures (s.setup.applied.Some? && s.setup.applied.value.settings == s.config.settings)
      || s.config.settings.version in s.versions.rejected
  {
    assert FateOk(s, s.gens.retired[i]);
    assert TargetOk(s);
    if s.gens.retired[i].fate.Applied? {
      AppliedUpTo(s.gens.retired, i);
      LastAppliedBound(s);
      assert LastApplied(s.gens.retired) == s.gens.settings;
    }
  }

  lemma LastAppliedBound(s: State)
    requires Inv(s)
    ensures LastApplied(s.gens.retired) <= s.gens.settings
  {
    assert AppliedIsLast(s);
  }

  /**
   * In every quiescent state the newest generation is settled exactly when the model hook did not raise on it;
   * then the worker runs the settings of the newest config, or has its version on record as rejected.
   */
  lemma SettingsConverge(config: Config, seeded: set<int>, steps: seq<Step>)
    requires Quiescent(Run(config, seeded, steps))
    ensures var s := Run(config, seeded, steps);
      && (s.gens.settled == s.gens.settings <==> Retired(s.gens.settings, Crashed) !in s.gens.retired)
      && (s.gens.settled == s.gens.settings ==>
            || (s.setup.applied.Some? && s.setup.applied.value.settings == s.config.settings)
            || s.config.settings.version in s.versions.rejected)
  {
    RunKeepsInv(config, seeded, steps);
    var s := Run(config, seeded, steps);
    hide Run;
    var i := NewestIsRetired(s);
    SettledUnlessCrashed(s, i);
    if !s.gens.retired[i].fate.Crashed? {
      NewestIsInForce(s, i);
    }
    hide Inv;
  }

  /** In every quiescent state the worker with a pipeline uses the newest stream and shows the newest identity. */
  lemma StreamConverges(config: Config, seeded: set<int>, steps: seq<Step>)
    requires Quiescent(Run(config, seeded, steps)) && Run(config, seeded, steps).setup.pipeline.Some?
    ensures var s := Run(config, seeded, steps);
      && s.setup.stream.Some? && s.setup.stream.value.gen == s.gens.stream && 0 < s.gens.stream <= |s.gens.sources|
      && s.gens.sources[s.gens.stream - 1] == s.config.stream
      && s.setup.pipeline.value.identity == s.config.identity
  {
    RunKeepsInv(config, seeded, steps);
    var s := Run(config, seeded, steps);
    hide Run;
    NothingInFlight(s, Sourced(s.gens.stream));
    assert StreamComes(s);
    assert SetupOk(s) && SourceOk(s) && IdentityOk(s);
    hide Inv;
    hide InFlight;
  }
}
