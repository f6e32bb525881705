/**
 * Between its check and its install a settings change of the camera worker is not looked at again: what
 * that promises of every change that was installed, and when a superseded one is installed, in any run.
 */
module WorkerInstalls {
  import opened Options
  import opened Seqs
  import opened WorkerConvergence
  import opened WorkerGenerations
  import opened WorkerProtocol

  /** The change the worker thread has checked and not yet installed. */
  function InHandOf(s: State): Option<Change> {
    match s.worker
    case Checked(change) => Some(change)
    case Building(change, _) => Some(change)
    case _ => None
  }

  /** The worker takes the change off its queue and finds that it is the newest and that no stop was asked for. */
  predicate Checks(s: State, step: Step, change: Change) {
    step.ApplyHead? && Enabled(s, step) && s.local[0] == Settings(change) && IsCurrent(s, change)
  }

  /** The worker installs the change in its hands. */
  predicate Installs(s: State, step: Step, change: Change) {
    && (step.BuildDone? || step.ApplyDone?) && Enabled(s, step) && InHandOf(s) == Some(change)
    && Next(s, step).setup.applied == Some(change.config)
    && Next(s, step).gens.retired == s.gens.retired + [Retired(change.gen, Applied)]
  }

  /** update() takes a settings generation, or a stop is asked for. */
  predicate Supersedes(s: State, step: Step) {
    TakesGeneration(s, step) || step.Stop?
  }

  // ---- the change in hand -----------------------------------------------------------------------------------

  lemma HandComesFromACheck(s: State, step: Step, change: Change)
    requires InHandOf(Next(s, step)) == Some(change)
    ensures InHandOf(s) == Some(change) || Checks(s, step, change)
  {
    if step.ApplyHead? {
      if Enabled(s, step) {
        HeadHands(s);
      }
    } else if step.BuildDone? || step.ApplyDone? || step.BuildFailed? || step.ApplyFailed? {
      EndEmptiesHand(s, step);
    } else {
      OthersHand(s, step);
    }
  }

  lemma HeadHands(s: State)
    requires Enabled(s, ApplyHead)
    ensures var t := Next(s, ApplyHead);
      InHandOf(t).Some? ==> Checks(s, ApplyHead, InHandOf(t).value)
  {
  }

  lemma EndEmptiesHand(s: State, step: Step)
    requires step.BuildDone? || step.ApplyDone? || step.BuildFailed? || step.ApplyFailed?
    ensures Enabled(s, step) ==> InHandOf(Next(s, step)).None?
  {
  }

  lemma OthersHand(s: State, step: Step)
    requires !step.ApplyHead? && !step.BuildDone? && !step.ApplyDone? && !step.BuildFailed? && !step.ApplyFailed?
    ensures InHandOf(Next(s, step)) == InHandOf(s) || InHandOf(Next(s, step)).None?
  {
  }

  /** While the worker holds a change, generations are taken and stops asked for only by superseding steps. */
  lemma HoldingStep(s: State, step: Step)
    requires InHandOf(s).Some?
    ensures Next(s, step).gens.settings == s.gens.settings + One(TakesGeneration(s, step))
    ensures Next(s, step).stopping == (s.stopping || step.Stop?)
  {
    NextFramed(s, step);
    if step.UpdateRequest? || step.Start? || step.Stop? {
      AskingStep(s, step);
    } else {
      HoldingStops(s, step);
    }
    hide Next;
  }

  lemma AskingStep(s: State, step: Step)
    requires InHandOf(s).Some? && (step.UpdateRequest? || step.Start? || step.Stop?)
    ensures Next(s, step).gens.settings == s.gens.settings + One(TakesGeneration(s, step))
    ensures Next(s, step).stopping == (s.stopping || step.Stop?)
  {
  }

  lemma HoldingStops(s: State, step: Step)
    requires InHandOf(s).Some? && !step.Stop?
    ensures Next(s, step).stopping == s.stopping
  {
  }

  lemma CheckKeepsCurrent(s: State, step: Step, change: Change)
    requires Checks(s, step, change)
    ensures IsCurrent(Next(s, step), change) && change.gen <= Next(s, step).gens.settings
  {
  }

  lemma HoldingCurrent(s: State, step: Step, change: Change)
    requires InHandOf(s) == Some(change) && change.gen <= s.gens.settings
    ensures change.gen <= Next(s, step).gens.settings
    ensures IsCurrent(Next(s, step), change) <==> IsCurrent(s, change) && !Supersedes(s, step)
  {
    HoldingStep(s, step);
    hide Next;
  }

  // ---- back to the check --------------------------------------------------------------------------------------

  /** No step from the m-th on supersedes. */
  ghost predicate NoneSupersedes(config: Config, seeded: set<int>, steps: seq<Step>, m: nat) {
    forall k | m <= k < |steps| :: !Supersedes(Run(config, seeded, steps[..k]), steps[k])
  }

  ghost predicate HeldSince(config: Config, seeded: set<int>, steps: seq<Step>, m: nat, change: Change) {
    forall k | m <= k <= |steps| :: InHandOf(Run(config, seeded, steps[..k])) == Some(change)
  }

  lemma NoneSupersedesStep(config: Config, seeded: set<int>, steps: seq<Step>, m: nat)
    requires steps != [] && m < |steps|
    ensures var front, last := steps[..|steps| - 1], steps[|steps| - 1];
      NoneSupersedes(config, seeded, steps, m) <==>
      NoneSupersedes(config, seeded, front, m) && !Supersedes(Run(config, seeded, front), last)
  {
    hide Run;
    hide Supersedes;
    var front := steps[..|steps| - 1];
    forall k | 0 <= k < |front|
      ensures steps[..k] == front[..k] && steps[k] == front[k]
    {
    }
    if NoneSupersedes(config, seeded, steps, m) {
      assert !Supersedes(Run(config, seeded, steps[..|front|]), steps[|front|]);
    }
  }

  lemma HeldSinceStep(config: Config, seeded: set<int>, steps: seq<Step>, m: nat, change: Change)
    requires steps != [] && m < |steps| && HeldSince(config, seeded, steps[..|steps| - 1], m, change)
    requires InHandOf(Run(config, seeded, steps)) == Some(change)
    ensures HeldSince(config, seeded, steps, m, change)
  {
    hide Run;
    hide InHandOf;
    var front := steps[..|steps| - 1];
    forall k | m <= k <= |steps|
      ensures InHandOf(Run(config, seeded, steps[..k])) == Some(change)
    {
      if k < |steps| {
        assert steps[..k] == front[..k];
      } else {
        assert steps[..k] == steps;
      }
    }
  }

  /** A change in hand was checked before, and is the newest still unless superseded since. */
  lemma {:induction false} HandWasChecked(config: Config, seeded: set<int>, steps: seq<Step>, change: Change)
    returns (m: nat)
    requires InHandOf(Run(config, seeded, steps)) == Some(change)
    ensures m < |steps| && Checks(Run(config, seeded, steps[..m]), steps[m], change)
    ensures HeldSince(config, seeded, steps, m + 1, change)
    ensures change.gen <= Run(config, seeded, steps).gens.settings
    ensures IsCurrent(Run(config, seeded, steps), change) <==> NoneSupersedes(config, seeded, steps, m + 1)
  {
    hide Next;
    hide Checks;
    hide IsCurrent;
    hide Supersedes;
    assert steps != [];
    var front, last := steps[..|steps| - 1], steps[|steps| - 1];
    var s := Run(config, seeded, front);
    hide Run;
    HandComesFromACheck(s, last, change);
    if InHandOf(s) == Some(change) {
      m := HandWasChecked(config, seeded, front, change);
      HeldSinceStep(config, seeded, steps, m + 1, change);
      NoneSupersedesStep(config, seeded, steps, m + 1);
      HoldingCurrent(s, last, change);
      assert steps[..m] == front[..m];
    } else {
      m := |front|;
      assert steps[..m] == front && steps[..|steps|] == steps;
      CheckKeepsCurrent(s, last, change);
    }
  }

  // ---- what is retired as applied -----------------------------------------------------------------------------

  /** No generation is retired as applied. */
  predicate AppliesNone(s: State, t: State) {
    && s.gens.retired <= t.gens.retired
    && (forall i | |s.gens.retired| <= i < |t.gens.retired| :: !t.gens.retired[i].fate.Applied?)
  }

  lemma CallerAppliesNone(s: State, step: Step)
    requires step.Start? || step.Stop? || step.UpdateEnter? || step.UpdateApply? || step.UpdateSpawnStream?
      || step.UpdateRequest? || step.UpdateSpawnLoad?
    ensures AppliesNone(s, Next(s, step))
  {
  }

  lemma HelperAppliesNone(s: State, step: Step)
    requires step.ParseFirst? || step.CheckCurrent? || step.AcquireDone? || step.QueueLoaded? || step.RejectLoad?
    ensures AppliesNone(s, Next(s, step))
  {
  }

  lemma StreamAppliesNone(s: State, step: Step)
    requires step.TryStream? || step.RetryStream? || step.QueueStream? || step.TakeQueue? || step.SpawnStream?
    ensures AppliesNone(s, Next(s, step))
  {
  }

  lemma WorkerAppliesNone(s: State, step: Step)
    requires step.FirstPrepared? || step.ApplyHead? || step.SpawnLoad? || step.ReadIdentity?
    ensures AppliesNone(s, Next(s, step))
  {
  }

  lemma FailedAppliesNone(s: State, step: Step)
    requires step.BuildFailed? || step.ApplyFailed?
    ensures AppliesNone(s, Next(s, step))
  {
  }

  lemma CleanUpAppliesNone(s: State)
    ensures AppliesNone(s, CleanedUp(s))
  {
    AppendDrops(s.gens.retired, s.queue);
    CleanedUpShape(s);
    var t := CleanedUp(s);
    hide CleanedUp;
    forall i | |s.gens.retired| <= i < |t.gens.retired|
      ensures !t.gens.retired[i].fate.Applied?
    {
      assert t.gens.retired[i] == DropsOf(s.queue)[i - |s.gens.retired|];
      assert t.gens.retired[i] in DropsOf(s.queue);
    }
  }

  lemma BuildInstalls(s: State)
    requires Enabled(s, BuildDone)
    ensures Installs(s, BuildDone, s.worker.change)
  {
  }

  lemma ApplyInstalls(s: State, hookRaises: bool)
    requires Enabled(s, ApplyDone(hookRaises)) && SetupOk(s)
    ensures Installs(s, ApplyDone(hookRaises), s.worker.change) || AppliesNone(s, Next(s, ApplyDone(hookRaises)))
  {
  }

  /** A step installs the change in hand, or retires nothing as applied. */
  lemma InstallsOrNone(s: State, step: Step)
    requires SetupOk(s)
    ensures AppliesNone(s, Next(s, step)) || (InHandOf(s).Some? && Installs(s, step, InHandOf(s).value))
  {
    hide AppliesNone;
    hide Installs;
    if !Enabled(s, step) {
      NoStepAppliesNone(s);
    } else {
      match step
      case ParseFirst(_, _) | CheckCurrent(_) | AcquireDone(_, _) | QueueLoaded(_) | RejectLoad(_) =>
        hide Next; HelperAppliesNone(s, step);
      case TryStream(_, _) | RetryStream(_) | QueueStream(_) | TakeQueue | SpawnStream =>
        hide Next; StreamAppliesNone(s, step);
      case FirstPrepared | ApplyHead | SpawnLoad | ReadIdentity => hide Next; WorkerAppliesNone(s, step);
      case BuildFailed | ApplyFailed => hide Next; FailedAppliesNone(s, step);
      case BuildDone => hide Next; BuildInstalls(s);
      case ApplyDone(hookRaises) => hide Next; ApplyInstalls(s, hookRaises);
      case Exit | CleanUpUnstarted => hide CleanedUp; CleanUpAppliesNone(s);
      case _ => hide Next; CallerAppliesNone(s, step);
    }
  }

  lemma NoStepAppliesNone(s: State)
    ensures AppliesNone(s, s)
  {
  }

  /** The step that retired the i-th generation, one that was applied, installed its change. */
  lemma {:induction false} AppliedByInstall(config: Config, seeded: set<int>, steps: seq<Step>, i: nat)
    returns (n: nat, change: Change)
    requires var retired := Run(config, seeded, steps).gens.retired;
      i < |retired| && retired[i].fate.Applied?
    ensures n < |steps| && Installs(Run(config, seeded, steps[..n]), steps[n], change)
    ensures change.gen == Run(config, seeded, steps).gens.retired[i].gen
  {
    hide Next;
    hide Installs;
    assert steps != [];
    var front, last := steps[..|steps| - 1], steps[|steps| - 1];
    RunKeepsInv(config, seeded, front);
    var s, t := Run(config, seeded, front), Run(config, seeded, steps);
    assert t == Next(s, last);
    hide Run;
    assert SetupOk(s);
    hide Inv;
    hide SetupOk;
    InstallsOrNone(s, last);
    InstallExtends(s, last);
    if i < |s.gens.retired| {
      assert s.gens.retired[i] == t.gens.retired[i];
      n, change := AppliedByInstall(config, seeded, front, i);
      assert steps[..n] == front[..n];
    } else {
      n, change := |front|, InHandOf(s).value;
      assert steps[..n] == front;
    }
  }

  lemma InstallExtends(s: State, step: Step)
    requires AppliesNone(s, Next(s, step)) || (InHandOf(s).Some? && Installs(s, step, InHandOf(s).value))
    ensures s.gens.retired <= Next(s, step).gens.retired
    ensures forall i | |s.gens.retired| <= i < |Next(s, step).gens.retired| && Next(s, step).gens.retired[i].fate.Applied? ::
      && InHandOf(s).Some? && Installs(s, step, InHandOf(s).value)
      && Next(s, step).gens.retired[i].gen == InHandOf(s).value.gen
  {
    hide Next;
  }

  /** What is said of the first `n` steps, said of all of them. */
  lemma PrefixFacts(config: Config, seeded: set<int>, steps: seq<Step>, n: nat, m: nat, change: Change)
    requires m < n <= |steps|
    requires HeldSince(config, seeded, steps[..n], m + 1, change)
    ensures steps[..n][..m] == steps[..m] && steps[..n][m] == steps[m]
    ensures forall k | m < k <= n :: InHandOf(Run(config, seeded, steps[..k])) == Some(change)
    ensures NoneSupersedes(config, seeded, steps[..n], m + 1) <==>
      forall k | m < k < n :: !Supersedes(Run(config, seeded, steps[..k]), steps[k])
  {
    var until := steps[..n];
    hide Run;
    hide InHandOf;
    hide Supersedes;
    forall k | m < k <= n
      ensures InHandOf(Run(config, seeded, steps[..k])) == Some(change)
    {
      assert until[..k] == steps[..k];
    }
    forall k | 0 <= k < n
      ensures until[..k] == steps[..k] && until[k] == steps[k]
    {
    }
  }

  /**
   * Every generation applied in a run was installed by one step, and at an earlier one it was checked to be the
   * newest, with no stop asked for; the worker held it all the time between. It is still the newest, with no stop
   * asked for, when it is installed if and only if update() took no generation and no stop came in between.
   */
  lemma InstalledChangeWasChecked(config: Config, seeded: set<int>, steps: seq<Step>, i: nat)
    returns (m: nat, n: nat, change: Change)
    requires var retired := Run(config, seeded, steps).gens.retired;
      i < |retired| && retired[i].fate.Applied?
    ensures m < n < |steps| && change.gen == Run(config, seeded, steps).gens.retired[i].gen
    ensures Checks(Run(config, seeded, steps[..m]), steps[m], change)
    ensures forall k | m < k <= n :: InHandOf(Run(config, seeded, steps[..k])) == Some(change)
    ensures Installs(Run(config, seeded, steps[..n]), steps[n], change)
    ensures IsCurrent(Run(config, seeded, steps[..n]), change) <==>
      forall k | m < k < n :: !Supersedes(Run(config, seeded, steps[..k]), steps[k])
  {
    n, change := AppliedByInstall(config, seeded, steps, i);
    m := HandWasChecked(config, seeded, steps[..n], change);
    hide *;
    PrefixFacts(config, seeded, steps, n, m, change);
  }

  // ---- only the newest is loaded, queued and installed --------------------------------------------------------

  predicate IsLoading(s: State, h: nat) {
    h < |s.helpers| && s.helpers[h].Load? && s.helpers[h].phase.Loading?
  }

  /** A load starts for the newest change only. */
  predicate LoadsNewest(s: State, t: State) {
    forall h: nat | h < |t.helpers| && IsLoading(t, h) && !IsLoading(s, h) :: IsCurrent(s, t.helpers[h].change)
  }

  predicate IsNewest(s: State, item: Item) {
    match item
    case Settings(change) => change.gen == s.gens.settings
    case Stream(gen, _) => gen == s.gens.stream && !s.stopping
    case Identity => true
  }

  /** What joins the queue is of the newest generation. */
  predicate QueuesNewest(s: State, t: State) {
    t.queue == s.queue || t.queue == [] || (s.queue <= t.queue && |t.queue| == |s.queue| + 1
                                            && IsNewest(t, t.queue[|s.queue|]))
  }

  /** A stream is installed from the head of the queue taken, as the newest one, with no stop asked for. */
  predicate InstallsNewest(s: State, t: State) {
    t.setup.stream != s.setup.stream ==>
      && s.local != [] && s.local[0].Stream? && !s.stopping && s.local[0].gen == s.gens.stream
      && t.setup.stream == Some(Installed(s.local[0].id, s.local[0].gen))
  }

  predicate OnlyNewest(s: State, t: State) {
    LoadsNewest(s, t) && QueuesNewest(s, t) && InstallsNewest(s, t) && s.gens.stream <= t.gens.stream
  }

  lemma CallerOnlyNewest(s: State, step: Step)
    requires step.Start? || step.Stop? || step.UpdateEnter? || step.UpdateApply? || step.UpdateSpawnStream?
      || step.UpdateRequest? || step.UpdateSpawnLoad?
    ensures OnlyNewest(s, Next(s, step))
  {
  }

  lemma HelperOnlyNewest(s: State, step: Step)
    requires step.ParseFirst? || step.CheckCurrent? || step.AcquireDone? || step.QueueLoaded? || step.RejectLoad?
    ensures OnlyNewest(s, Next(s, step))
  {
  }

  lemma StreamOnlyNewest(s: State, step: Step)
    requires step.TryStream? || step.RetryStream? || step.QueueStream? || step.TakeQueue? || step.SpawnStream?
    ensures OnlyNewest(s, Next(s, step))
  {
  }

  lemma WorkerOnlyNewest(s: State, step: Step)
    requires step.FirstPrepared? || step.ApplyHead? || step.SpawnLoad? || step.ReadIdentity?
    ensures OnlyNewest(s, Next(s, step))
  {
  }

  lemma FailedOnlyNewest(s: State, step: Step)
    requires step.BuildFailed? || step.ApplyFailed?
    ensures OnlyNewest(s, Next(s, step))
  {
  }

  lemma BuiltOnlyNewest(s: State)
    ensures OnlyNewest(s, Next(s, BuildDone))
  {
  }

  lemma AppliedOnlyNewest(s: State, hookRaises: bool)
    ensures OnlyNewest(s, Next(s, ApplyDone(hookRaises)))
  {
  }

  lemma CleanUpOnlyNewest(s: State)
    ensures OnlyNewest(s, CleanedUp(s))
  {
  }

  lemma NextOnlyNewest(s: State, step: Step)
    ensures OnlyNewest(s, Next(s, step))
  {
    match step
    case ParseFirst(_, _) | CheckCurrent(_) | AcquireDone(_, _) | QueueLoaded(_) | RejectLoad(_) =>
      hide OnlyNewest; hide Next; HelperOnlyNewest(s, step);
    case TryStream(_, _) | RetryStream(_) | QueueStream(_) | TakeQueue | SpawnStream =>
      hide OnlyNewest; hide Next; StreamOnlyNewest(s, step);
    case FirstPrepared | ApplyHead | SpawnLoad | ReadIdentity => hide OnlyNewest; hide Next; WorkerOnlyNewest(s, step);
    case BuildFailed | ApplyFailed => hide OnlyNewest; hide Next; FailedOnlyNewest(s, step);
    case BuildDone => hide OnlyNewest; hide Next; BuiltOnlyNewest(s);
    case ApplyDone(hookRaises) => hide OnlyNewest; hide Next; AppliedOnlyNewest(s, hookRaises);
    case Exit | CleanUpUnstarted =>
      hide CleanedUp;
      CleanUpOnlyNewest(s);
    case _ => hide OnlyNewest; hide Next; CallerOnlyNewest(s, step);
  }

  function StreamInUse(s: State): nat {
    if s.setup.stream.Some? then s.setup.stream.value.gen else 0
  }

  lemma {:induction false} StreamsOnlyGetNewer(config: Config, seeded: set<int>, before: seq<Step>, later: seq<Step>)
    ensures var s, t := Run(config, seeded, before), Run(config, seeded, before + later);
      && StreamInUse(s) <= StreamInUse(t) <= t.gens.stream
      && (s.setup.stream.Some? ==> t.setup.stream.Some?)
  {
    var all := before + later;
    hide Next;
    if all == [] {
    } else if later == [] {
      assert all == before;
      StreamsOnlyGetNewer(config, seeded, before[..|before| - 1], [before[|before| - 1]]);
      assert before[..|before| - 1] + [before[|before| - 1]] == before;
    } else {
      var front := later[..|later| - 1];
      assert all[..|all| - 1] == before + front;
      if before + front == [] {
        NextOnlyNewest(NewWorker(config, seeded), later[|later| - 1]);
      } else {
        StreamsOnlyGetNewer(config, seeded, before, front);
        NextOnlyNewest(Run(config, seeded, before + front), later[|later| - 1]);
      }
    }
  }

  /**
   * At every step of every run: a model load starts only for the newest settings generation, with no stop asked for; a
   * change or stream joins the queue only as the newest of its kind; a stream is installed only as the newest, with no
   * stop asked for.
   */
  lemma EveryStepOnlyNewest(config: Config, seeded: set<int>, steps: seq<Step>, n: nat)
    requires n < |steps|
    ensures OnlyNewest(Run(config, seeded, steps[..n]), Run(config, seeded, steps[..n + 1]))
  {
    assert steps[..n + 1][..n] == steps[..n];
    NextOnlyNewest(Run(config, seeded, steps[..n]), steps[n]);
    hide Next;
    hide OnlyNewest;
  }
}
