/**
 * What a stop ends, what a stream waits for and how long it is tried: no load or stream begins after a stop, none before
 * the first pipeline, and a stream is tried until it starts or is superseded.
 */
module WorkerStops {
  import opened Options
  import opened Seqs
  import opened WorkerProtocol

  // ---- after a stop ----------------------------------------------------------------------------------------

  /** The helper is in a call that can still bring a detector. */
  function LoadsNow(): Helper -> bool {
    (h: Helper) => h.Load? && h.phase.Loading?
  }

  /** The helper is in a call that can still bring a stream. */
  function TriesNow(): Helper -> bool {
    (h: Helper) => h.StreamUp? && h.phaseS.Trying?
  }

  /** Detectors acquired and streams created, with the ones that may still come from calls under way. */
  function AtMostDetectors(s: State): nat {
    |s.ledger.acquired| + Count(LoadsNow(), s.helpers)
  }

  function AtMostStreams(s: State): nat {
    s.ledger.streams + Count(TriesNow(), s.helpers)
  }

  ghost predicate Quiet(s: State, t: State) {
    && t.stopping && t.config == s.config
    && |t.helpers| == |s.helpers| && AtMostDetectors(t) <= AtMostDetectors(s) && AtMostStreams(t) <= AtMostStreams(s)
  }

  lemma HelperQuiet(s: State, h: nat, helper: Helper, t: State)
    requires s.stopping && h < |s.helpers| && t.helpers == s.helpers[h := helper]
    requires t.stopping && t.config == s.config
    requires !LoadsNow()(helper) && !TriesNow()(helper)
    requires |t.ledger.acquired| <= |s.ledger.acquired| + One(LoadsNow()(s.helpers[h]))
    requires t.ledger.streams <= s.ledger.streams + One(TriesNow()(s.helpers[h]))
    ensures Quiet(s, t)
  {
    CountUpdate(LoadsNow(), s.helpers, h, helper);
    CountUpdate(TriesNow(), s.helpers, h, helper);
  }

  ghost predicate HelperStep(step: Step) {
    || step.ParseFirst? || step.CheckCurrent? || step.AcquireDone? || step.QueueLoaded? || step.RejectLoad?
    || step.TryStream? || step.RetryStream? || step.QueueStream?
  }

  ghost predicate CallerStep(step: Step) {
    step.Start? || step.UpdateEnter? || step.UpdateApply? || step.UpdateSpawnStream? || step.UpdateRequest?
    || step.UpdateSpawnLoad?
  }

  lemma RejectKeeps(s: State, config: Config, gen: Option<nat>, loadError: bool)
    ensures var t := Reject(s, config, gen, loadError);
      && t.setup == s.setup && t.config == s.config && t.stopping == s.stopping && t.gens.stream == s.gens.stream
      && t.ledger == s.ledger && t.queue == s.queue
      && t.local == s.local && t.caller == s.caller && t.worker == s.worker && t.helpers == s.helpers
  {
  }

  lemma HelperStopped(s: State, step: Step)
    requires s.stopping && Enabled(s, step) && HelperStep(step)
    ensures Quiet(s, Next(s, step))
  {
    var t := Next(s, step);
    HelperQuiet(s, step.helper, t.helpers[step.helper], t);
  }

  /** The stop flag, the config, the helpers and what was brought so far stay. */
  ghost predicate Same(s: State, t: State) {
    && t.stopping && t.config == s.config && t.helpers == s.helpers
    && t.ledger.acquired == s.ledger.acquired && t.ledger.streams == s.ledger.streams
  }

  lemma CallerStopped(s: State, step: Step)
    requires s.stopping && Enabled(s, step) && CallerStep(step)
    ensures Same(s, Next(s, step))
  {
    RejectKeeps(s.(caller := NoCall), s.config, None, false);
    hide Reject;
  }

  lemma WorkerStopped(s: State, step: Step)
    requires s.stopping && Enabled(s, step) && !HelperStep(step) && !CallerStep(step)
    ensures Same(s, Next(s, step))
  {
    if s.worker.Checked? || s.worker.Building? {
      var c := s.worker.change;
      RejectKeeps(Release(s.(worker := Running), c.detector), c.config, Some(c.gen), false);
    }
    hide Reject;
  }

  lemma NothingHappens(s: State, step: Step)
    requires !Enabled(s, step)
    ensures Next(s, step) == s
  {
    hide Enabled;
  }

  lemma StepStopped(s: State, step: Step)
    requires s.stopping
    ensures Quiet(s, Next(s, step))
  {
    hide Next;
    hide Enabled;
    if !Enabled(s, step) {
      NothingHappens(s, step);
    } else if HelperStep(step) {
      HelperStopped(s, step);
    } else if CallerStep(step) {
      CallerStopped(s, step);
    } else {
      WorkerStopped(s, step);
    }
  }

  /**
   * Once the worker is stopped, no config is taken and no helper starts; a detector or a stream comes only from a call
   * that was under way at the stop, one from each.
   */
  lemma {:induction false} StopBeginsNothing(s: State, steps: seq<Step>)
    requires s.stopping
    ensures Quiet(s, After(s, steps))
  {
    if steps != [] {
      StopBeginsNothing(s, steps[..|steps| - 1]);
      StepStopped(After(s, steps[..|steps| - 1]), steps[|steps| - 1]);
    }
  }

  // ---- before the first pipeline ---------------------------------------------------------------------------

  predicate NoStreamIn(items: seq<Item>) {
    forall i | 0 <= i < |items| :: !items[i].Stream?
  }

  /** No stream was asked for, is starting or was started, and there is no pipeline. */
  ghost predicate Streamless(s: State) {
    && s.gens.stream == 0 && s.ledger.streams == 0 && s.setup.stream.None? && s.setup.pipeline.None?
    && NoStreamIn(s.queue) && NoStreamIn(s.local) && !s.caller.StreamDue? && !s.worker.StartingStream?
    && forall h | 0 <= h < |s.helpers| :: !s.helpers[h].StreamUp?
  }

  /** The stream waits for the first pipeline; from then on at least one was asked for. */
  ghost predicate WaitsForPipeline(s: State) {
    if s.setup.streamWanted then s.gens.stream > 0 && s.setup.pipeline.Some? else Streamless(s)
  }

  lemma WantedHelpers(s: State, step: Step)
    requires s.setup.streamWanted && WaitsForPipeline(s) && Enabled(s, step) && HelperStep(step)
    ensures Next(s, step).setup.streamWanted && WaitsForPipeline(Next(s, step))
  {
    var change := s.helpers[step.helper];
    if change.Load? {
      RejectKeeps(SetHelper(s, step.helper, Ended), change.change.config, Some(change.change.gen), step.RejectLoad?);
    }
    hide Reject;
    hide Streamless;
  }

  lemma WantedCaller(s: State, step: Step)
    requires s.setup.streamWanted && WaitsForPipeline(s) && Enabled(s, step) && CallerStep(step)
    ensures Next(s, step).setup.streamWanted && WaitsForPipeline(Next(s, step))
  {
    RejectKeeps(s.(caller := NoCall), s.config, None, false);
    hide Reject;
    hide Streamless;
  }

  lemma WantedWorker(s: State, step: Step)
    requires s.setup.streamWanted && WaitsForPipeline(s) && Enabled(s, step) && !CallerStep(step) && !HelperStep(step)
    ensures Next(s, step).setup.streamWanted && WaitsForPipeline(Next(s, step))
  {
    if s.worker.Checked? || s.worker.Building? {
      var c := s.worker.change;
      RejectKeeps(Release(s.(worker := Running), c.detector), c.config, Some(c.gen), false);
    }
    hide Reject;
    hide Streamless;
  }

  lemma WantedStays(s: State, step: Step)
    requires s.setup.streamWanted && WaitsForPipeline(s)
    ensures Next(s, step).setup.streamWanted && WaitsForPipeline(Next(s, step))
  {
    if Enabled(s, step) {
      hide *;
      if CallerStep(step) {
        WantedCaller(s, step);
      } else if HelperStep(step) {
        WantedHelpers(s, step);
      } else {
        WantedWorker(s, step);
      }
    }
  }

  lemma StreamlessHelpers(s: State, step: Step)
    requires !s.setup.streamWanted && Streamless(s) && Enabled(s, step) && HelperStep(step)
    ensures !Next(s, step).setup.streamWanted && Streamless(Next(s, step))
  {
    var change := s.helpers[step.helper];
    if change.Load? {
      RejectKeeps(SetHelper(s, step.helper, Ended), change.change.config, Some(change.change.gen), step.RejectLoad?);
    }
    hide Reject;
  }

  lemma StreamlessCaller(s: State, step: Step)
    requires !s.setup.streamWanted && Streamless(s) && Enabled(s, step) && CallerStep(step)
    ensures !Next(s, step).setup.streamWanted && Streamless(Next(s, step))
  {
    RejectKeeps(s.(caller := NoCall), s.config, None, false);
    hide Reject;
  }

  lemma StreamlessWorker(s: State, step: Step)
    requires !s.setup.streamWanted && Streamless(s) && Enabled(s, step)
    requires !CallerStep(step) && !HelperStep(step) && !step.BuildDone?
    ensures !Next(s, step).setup.streamWanted && Streamless(Next(s, step))
  {
    if s.worker.Checked? || s.worker.Building? {
      var c := s.worker.change;
      RejectKeeps(Release(s.(worker := Running), c.detector), c.config, Some(c.gen), false);
    }
    hide Reject;
  }

  lemma StreamlessStays(s: State, step: Step)
    requires !s.setup.streamWanted && Streamless(s) && Enabled(s, step) && !step.BuildDone?
    ensures !Next(s, step).setup.streamWanted && Streamless(Next(s, step))
  {
    hide *;
    if CallerStep(step) {
      StreamlessCaller(s, step);
    } else if HelperStep(step) {
      StreamlessHelpers(s, step);
    } else {
      StreamlessWorker(s, step);
    }
  }

  lemma FirstPipeline(s: State)
    requires !s.setup.streamWanted && Streamless(s) && Enabled(s, BuildDone)
    ensures WaitsForPipeline(Next(s, BuildDone)) && Next(s, BuildDone).worker == StartingStream(1)
  {
  }

  /** Over every run: no stream is asked for, started or taken before the first pipeline, and one is asked for with it. */
  lemma {:induction false} StreamWaitsForPipeline(config: Config, seeded: set<int>, steps: seq<Step>)
    ensures var s := Run(config, seeded, steps);
      WaitsForPipeline(s) && (s.setup.pipeline.Some? <==> s.setup.streamWanted)
  {
    if steps != [] {
      var before, step := Run(config, seeded, steps[..|steps| - 1]), steps[|steps| - 1];
      StreamWaitsForPipeline(config, seeded, steps[..|steps| - 1]);
      if before.setup.streamWanted {
        WantedStays(before, step);
      } else if Enabled(before, step) {
        if step.BuildDone? {
          FirstPipeline(before);
        } else {
          StreamlessStays(before, step);
        }
      }
      hide Next;
      hide Enabled;
    }
  }

  // ---- trying a stream -------------------------------------------------------------------------------------

  predicate AreFailures(failures: seq<StreamAttempt>) {
    forall i | 0 <= i < |failures| :: !failures[i].StreamOk?
  }

  /** The helper's steps through attempts that fail. */
  function Trials(h: nat, failures: seq<StreamAttempt>): seq<Step> {
    if failures == [] then []
    else Trials(h, failures[..|failures| - 1]) + [TryStream(h, failures[|failures| - 1]), RetryStream(h)]
  }

  /** The helper tries the newest stream, and no stop was asked for. */
  predicate TriesNewest(s: State, h: nat) {
    && h < |s.helpers| && s.helpers[h].StreamUp? && s.helpers[h].phaseS.Trying?
    && !s.stopping && s.helpers[h].gen == s.gens.stream
  }

  lemma OneTrial(s: State, h: nat, failure: StreamAttempt)
    requires TriesNewest(s, h) && !failure.StreamOk?
    ensures var t := Next(Next(s, TryStream(h, failure)), RetryStream(h));
      && t == s.(ledger := t.ledger) && s.ledger.streams <= t.ledger.streams
      && |t.ledger.stopped| - |s.ledger.stopped| == t.ledger.streams - s.ledger.streams
  {
    assert s.helpers[h := StreamUp(s.helpers[h].gen, Retrying)][h := s.helpers[h]] == s.helpers;
  }

  lemma {:induction false} AllTrials(s: State, h: nat, failures: seq<StreamAttempt>)
    requires TriesNewest(s, h) && AreFailures(failures)
    ensures var t := After(s, Trials(h, failures));
      && t == s.(ledger := t.ledger) && s.ledger.streams <= t.ledger.streams
      && |t.ledger.stopped| - |s.ledger.stopped| == t.ledger.streams - s.ledger.streams
  {
    if failures != [] {
      var front, last := failures[..|failures| - 1], failures[|failures| - 1];
      AllTrials(s, h, front);
      var m := After(s, Trials(h, front));
      OneTrial(m, h, last);
      hide Next;
      AfterStep(s, Trials(h, front), TryStream(h, last));
      AfterStep(s, Trials(h, front) + [TryStream(h, last)], RetryStream(h));
      assert Trials(h, failures) == Trials(h, front) + [TryStream(h, last)] + [RetryStream(h)];
    }
  }

  /** A successful attempt from `s`, and the queueing of its stream. */
  ghost predicate Brings(s: State, h: nat, t: State)
    requires h < |s.helpers|
  {
    && t.queue == s.queue + [Item.Stream(s.gens.stream, s.ledger.streams)] && t.helpers == s.helpers[h := Ended]
    && t.ledger.streams == s.ledger.streams + 1 && t.ledger.stopped == s.ledger.stopped
  }

  lemma LastTrial(s: State, h: nat)
    requires TriesNewest(s, h)
    ensures Brings(s, h, Next(Next(s, TryStream(h, StreamOk)), QueueStream(h)))
  {
    assert s.helpers[h := StreamUp(s.gens.stream, Up(s.ledger.streams))][h := Ended] == s.helpers[h := Ended];
  }

  /**
   * However many attempts fail, the helper of the newest stream tries again, every stream it could create but not start
   * is stopped, and the one that starts is queued.
   */
  lemma StreamIsTriedUntilItStarts(s: State, h: nat, failures: seq<StreamAttempt>)
    requires TriesNewest(s, h) && AreFailures(failures)
    ensures var t := After(s, Trials(h, failures) + [TryStream(h, StreamOk)] + [QueueStream(h)]);
      && t.ledger.streams > s.ledger.streams
      && t.queue == s.queue + [Item.Stream(s.gens.stream, t.ledger.streams - 1)]
      && t.helpers == s.helpers[h := Ended]
      && |t.ledger.stopped| - |s.ledger.stopped| == t.ledger.streams - 1 - s.ledger.streams
  {
    var trials := Trials(h, failures);
    AllTrials(s, h, failures);
    AfterStep(s, trials, TryStream(h, StreamOk));
    AfterStep(s, trials + [TryStream(h, StreamOk)], QueueStream(h));
    hide Next;
    hide After;
    LastTrial(After(s, trials), h);
  }

  /** A helper whose last attempt is over, and whose stream was superseded or that is to stop. */
  predicate TriedForNothing(s: State, h: nat) {
    h < |s.helpers| && match s.helpers[h]
                       case StreamUp(gen, phase) => !phase.Trying? && (s.stopping || gen < s.gens.stream)
                       case Ended => true
                       case Load(_, _) => false
  }

  /** No helper but the one that took a step changes, and nothing is taken back. */
  ghost predicate Keeps(s: State, t: State, h: nat)
    requires h < |s.helpers|
  {
    && |s.helpers| <= |t.helpers| && t.helpers[h] == s.helpers[h]
    && s.gens.stream <= t.gens.stream && (s.stopping ==> t.stopping)
  }

  lemma CallerKeeps(s: State, step: Step, h: nat)
    requires h < |s.helpers| && Enabled(s, step) && CallerStep(step)
    ensures Keeps(s, Next(s, step), h)
  {
    RejectKeeps(s.(caller := NoCall), s.config, None, false);
    hide Reject;
  }

  lemma WorkerKeeps(s: State, step: Step, h: nat)
    requires h < |s.helpers| && Enabled(s, step) && !CallerStep(step) && !HelperStep(step)
    ensures Keeps(s, Next(s, step), h)
  {
    if s.worker.Checked? || s.worker.Building? {
      var c := s.worker.change;
      RejectKeeps(Release(s.(worker := Running), c.detector), c.config, Some(c.gen), false);
    }
    hide Reject;
  }

  lemma OtherHelperKeeps(s: State, step: Step, h: nat)
    requires h < |s.helpers| && Enabled(s, step) && HelperStep(step) && step.helper != h
    ensures Keeps(s, Next(s, step), h)
  {
    var helper := s.helpers[step.helper];
    if helper.Load? {
      RejectKeeps(SetHelper(s, step.helper, Ended), helper.change.config, Some(helper.change.gen), step.RejectLoad?);
    }
    hide Reject;
  }

  lemma StillForNothing(s: State, step: Step, h: nat)
    requires TriedForNothing(s, h)
    ensures TriedForNothing(Next(s, step), h)
  {
    if !Enabled(s, step) {
      NothingHappens(s, step);
    } else if HelperStep(step) && step.helper == h {
      assert step.RetryStream? || step.QueueStream?;
    } else {
      hide Next;
      hide Enabled;
      if CallerStep(step) {
        CallerKeeps(s, step, h);
      } else if HelperStep(step) {
        OtherHelperKeeps(s, step, h);
      } else {
        WorkerKeeps(s, step, h);
      }
    }
  }

  /** Between two attempts a superseded helper ends: it never tries again. */
  lemma {:induction false} SupersededIsNotTriedAgain(s: State, h: nat, steps: seq<Step>)
    requires TriedForNothing(s, h)
    ensures TriedForNothing(After(s, steps), h)
  {
    if steps != [] {
      SupersededIsNotTriedAgain(s, h, steps[..|steps| - 1]);
      StillForNothing(After(s, steps[..|steps| - 1]), steps[|steps| - 1], h);
    }
  }
}
