/**
 * What the inference thread gets done: it accepts what is asked before the stop, fills its batches as far as it may,
 * answers each request as the model call went, and left alone it works everything off.
 */
module ModelEntryProgress {
  import opened ModelEntry
  import opened Options
  import opened Seqs

  // ---- what is accepted -------------------------------------------------------------------------------------

  predicate StopAsked(steps: seq<Step>) {
    exists n :: 0 <= n < |steps| && steps[n].RequestStop?
  }

  /** The frames and arguments submitted before the stop, in order. */
  function Asked(steps: seq<Step>): seq<(int, int)> {
    if steps == [] then []
    else
      var front, last := steps[..|steps| - 1], steps[|steps| - 1];
      Asked(front) + if last.Submit? && !StopAsked(front) then [(last.frame, last.kwargs)] else []
  }

  ghost predicate AcceptedIs(s: State, asked: seq<(int, int)>) {
    |s.accepted| == |asked| && forall i | 0 <= i < |asked| :: s.accepted[i] == Request(i, asked[i].0, asked[i].1)
  }

  lemma NextAccepts(maxBatch: nat, s: State, step: Step)
    ensures var t := Next(maxBatch, s, step);
      && t.stopping == (s.stopping || step.RequestStop?)
      && t.accepted == s.accepted + if step.Submit? && !s.stopping
                                    then [Request(|s.accepted|, step.frame, step.kwargs)] else []
  {
  }

  /** Every request submitted before the stop is accepted, in order, and none after it. */
  lemma {:induction false} AcceptedAre(maxBatch: nat, steps: seq<Step>)
    ensures var s := Run(maxBatch, steps);
      AcceptedIs(s, Asked(steps)) && (s.stopping <==> StopAsked(steps))
  {
    if steps != [] {
      var front, last := steps[..|steps| - 1], steps[|steps| - 1];
      AcceptedAre(maxBatch, front);
      NextAccepts(maxBatch, Run(maxBatch, front), last);
      hide Next;
      assert StopAsked(steps) <==> StopAsked(front) || last.RequestStop?;
    }
  }

  function GivenUp(steps: seq<Step>): set<nat> {
    set i | 0 <= i < |steps| && steps[i].Abandon? :: steps[i].id
  }

  /** The requests given up are exactly those whose callers said so. */
  lemma {:induction false} AbandonedAre(maxBatch: nat, steps: seq<Step>)
    ensures Run(maxBatch, steps).abandoned == GivenUp(steps)
  {
    if steps != [] {
      var front, last := steps[..|steps| - 1], steps[|steps| - 1];
      AbandonedAre(maxBatch, front);
      NextAbandons(maxBatch, Run(maxBatch, front), last);
      hide Next;
      forall id
        ensures id in GivenUp(steps) <==> id in GivenUp(front) || (last.Abandon? && id == last.id)
      {
        if id in GivenUp(front) {
          var i :| 0 <= i < |front| && front[i].Abandon? && front[i].id == id;
          assert steps[i] == front[i];
        }
        if last.Abandon? && id == last.id {
          assert steps[|steps| - 1].id == id;
        }
      }
    }
  }

  lemma NextAbandons(maxBatch: nat, s: State, step: Step)
    ensures Next(maxBatch, s, step).abandoned == s.abandoned + if step.Abandon? then {step.id} else {}
  {
  }

  // ---- how a batch is filled --------------------------------------------------------------------------------

  /** The thread looks at the queue `n` times, with no one in between. */
  function Looks(maxBatch: nat, s: State, n: nat): State {
    if n == 0 then s else Next(maxBatch, Looks(maxBatch, s, n - 1), TakeMore)
  }

  predicate SameKind(queue: seq<Item>, n: nat, kwargs: int) {
    n <= |queue| && forall i | 0 <= i < n :: queue[i].Ask? && queue[i].request.kwargs == kwargs
  }

  lemma {:induction false} RequestsAtMost(queue: seq<Item>)
    requires forall i | 0 <= i < |queue| :: queue[i].Ask?
    ensures |Requests(queue)| == |queue|
  {
    if queue != [] {
      RequestsAtMost(queue[1..]);
    }
  }

  lemma {:induction false} LooksTake(maxBatch: nat, s: State, n: nat)
    requires s.runner.Filling? && s.runner.batch != [] && |s.runner.batch| + n <= maxBatch
    requires SameKind(s.queue, n, s.runner.batch[0].kwargs)
    ensures Looks(maxBatch, s, n) ==
      s.(queue := s.queue[n..], runner := Filling(s.runner.batch + Requests(s.queue[..n])))
  {
    if n == 0 {
      assert Requests([]) == [];
      assert s.runner.batch + [] == s.runner.batch;
    } else {
      LooksTake(maxBatch, s, n - 1);
      var before := Looks(maxBatch, s, n - 1);
      var r := s.queue[n - 1].request;
      RequestsAtMost(s.queue[..n - 1]);
      assert before.runner.batch[0] == s.runner.batch[0] && |before.runner.batch| < maxBatch;
      RequestsAppend(s.queue[..n - 1], s.queue[n - 1]);
      assert s.queue[..n] == s.queue[..n - 1] + [s.queue[n - 1]];
      assert s.queue[n - 1] == Ask(r) && [Ask(r)][1..] == [] && Requests([]) == [];
      assert Requests([s.queue[n - 1]]) == [r];
      assert before.queue[0] == s.queue[n - 1] && before.queue[1..] == s.queue[n..];
      hide Requests;
      assert Requests(s.queue[..n]) == Requests(s.queue[..n - 1]) + [r];
      assert Next(maxBatch, before, TakeMore) ==
        before.(queue := before.queue[1..], runner := Filling(before.runner.batch + [r]));
      assert s.runner.batch + (Requests(s.queue[..n - 1]) + [r]) == (s.runner.batch + Requests(s.queue[..n - 1])) + [r];
    }
  }

  /** Why the thread takes no more: the batch is full, the queue is empty, or a stop or another kind comes next. */
  predicate Ends(maxBatch: nat, s: State, n: nat)
    requires s.runner.Filling? && s.runner.batch != [] && n <= |s.queue|
  {
    || |s.runner.batch| + n == maxBatch || n == |s.queue|
    || s.queue[n].Sentinel? || s.queue[n].request.kwargs != s.runner.batch[0].kwargs
  }

  /**
   * A batch takes all requests of its arguments that are next in the queue, up to its limit: it is complete after one
   * look more than it takes, and not before. Of the next item it takes a stop, or carries a request of another kind.
   */
  lemma FillTakesAll(maxBatch: nat, s: State) returns (n: nat)
    requires s.runner.Filling? && Uniform(maxBatch, s.runner.batch) && s.carry.None?
    ensures n <= |s.queue| && |s.runner.batch| + n <= maxBatch && SameKind(s.queue, n, s.runner.batch[0].kwargs)
    ensures Ends(maxBatch, s, n)
    ensures forall m: nat | m <= n :: Looks(maxBatch, s, m).runner.Filling?
    ensures var t := Looks(maxBatch, s, n + 1);
      var full := |s.runner.batch| + n == maxBatch || n == |s.queue|;
      && t.runner == Complete(s.runner.batch + Requests(s.queue[..n]))
      && t.carry == (if !full && s.queue[n].Ask? then Some(s.queue[n].request) else None)
      && t.stop == (s.stop || (!full && s.queue[n].Sentinel?))
      && t.queue == (if full then s.queue[n..] else s.queue[n + 1..])
  {
    n := 0;
    while n < |s.queue| && |s.runner.batch| + n < maxBatch && s.queue[n].Ask?
      && s.queue[n].request.kwargs == s.runner.batch[0].kwargs
      invariant n <= |s.queue| && |s.runner.batch| + n <= maxBatch && SameKind(s.queue, n, s.runner.batch[0].kwargs)
    {
      n := n + 1;
    }
    forall m: nat | m <= n
      ensures Looks(maxBatch, s, m).runner.Filling?
    {
      LooksTake(maxBatch, s, m);
    }
    LooksTake(maxBatch, s, n);
    RequestsAtMost(s.queue[..n]);
  }

  // ---- what is answered -------------------------------------------------------------------------------------

  /**
   * A call of the model answers exactly the requests of the batch whose callers still wait, in order: each with its
   * own result if the model returned one per request, and all with an error if it did not.
   */
  lemma InferAnswers(maxBatch: nat, s: State, outcome: Outcome, single: (int, int) -> int)
    requires Inv(maxBatch, s) && s.runner.Complete? && FrameByFrame(single, Live(s), outcome)
    ensures var t, live := Next(maxBatch, s, Infer(outcome)), Live(s);
      && |t.finishes| == |s.finishes| + |live| && t.finishes[..|s.finishes|] == s.finishes
      && (forall r :: r in live <==> r in s.runner.batch && r.id !in s.abandoned)
      && (forall k | 0 <= k < |live| ::
            t.finishes[|s.finishes| + k] ==
              Finish(live[k].id, if outcome.Results? && |outcome.values| == |live|
                                 then Result(single(live[k].frame, live[k].kwargs)) else Error))
  {
    LiveIsUniform(maxBatch, s);
    hide Inv;
    hide Filter;
  }

  // ---- everything is worked off -----------------------------------------------------------------------------

  /** What the thread does next. */
  function ThreadStep(s: State, outcome: Outcome): Step {
    match s.runner
    case Between => TakeFirst
    case Filling(_) => TakeMore
    case Complete(_) => Infer(outcome)
    case Gone => TakeFirst
  }

  /** The thread alone, with these outcomes of the model. */
  function Alone(maxBatch: nat, s: State, outcomes: seq<Outcome>): State
    decreases outcomes
  {
    if outcomes == [] then s else Alone(maxBatch, Next(maxBatch, s, ThreadStep(s, outcomes[0])), outcomes[1..])
  }

  function Work(s: State): nat {
    4 * |s.queue| + (if s.carry.Some? then 4 else 0)
    + match s.runner
      case Between => if s.stop then 1 else 0
      case Filling(_) => 3
      case Complete(_) => 2
      case Gone => 0
  }

  predicate Idle(s: State) {
    s.runner.Gone? || (s.runner.Between? && s.queue == [] && s.carry.None? && !s.stop)
  }

  lemma WorkLess(maxBatch: nat, s: State, outcome: Outcome)
    requires Inv(maxBatch, s) && !Idle(s)
    ensures Work(Next(maxBatch, s, ThreadStep(s, outcome))) < Work(s)
  {
    assert BatchesOk(maxBatch, s);
    hide Live;
    hide Finishes;
    hide Conserved;
    hide Numbered;
    hide FinishesOk;
  }

  /** The stop is on its way to the thread. */
  ghost predicate StopComes(s: State) {
    s.stopping ==> s.stop || s.runner.Gone? || exists i :: 0 <= i < |s.queue| && s.queue[i].Sentinel?
  }

  lemma NextStopComes(maxBatch: nat, s: State, step: Step)
    requires StopComes(s)
    ensures StopComes(Next(maxBatch, s, step))
  {
    hide Live;
    hide Finishes;
    var t := Next(maxBatch, s, step);
    if step.RequestStop? && !s.stopping {
      assert t.queue[|s.queue|].Sentinel?;
    } else if i :| 0 <= i < |s.queue| && s.queue[i].Sentinel? {
      if |t.queue| >= |s.queue| {
        assert t.queue[i] == s.queue[i];
      } else if i > 0 {
        assert t.queue[i - 1] == s.queue[i];
      }
    }
  }

  lemma {:induction false} RunStopComes(maxBatch: nat, steps: seq<Step>)
    ensures StopComes(Run(maxBatch, steps))
  {
    if steps != [] {
      RunStopComes(maxBatch, steps[..|steps| - 1]);
      hide StopComes;
      hide Next;
      NextStopComes(maxBatch, Run(maxBatch, steps[..|steps| - 1]), steps[|steps| - 1]);
    }
  }

  lemma {:induction false} AloneEnds(maxBatch: nat, s: State, outcomes: seq<Outcome>) returns (k: nat)
    requires maxBatch >= 1 && Inv(maxBatch, s) && StopComes(s) && |outcomes| >= Work(s)
    ensures k <= Work(s) && k <= |outcomes|
    ensures var t := Alone(maxBatch, s, outcomes[..k]);
      Idle(t) && Inv(maxBatch, t) && StopComes(t) && t.accepted == s.accepted && t.abandoned == s.abandoned
      && t.stopping == s.stopping
    decreases |outcomes|
  {
    if Idle(s) {
      k := 0;
    } else {
      var step := ThreadStep(s, outcomes[0]);
      var next := Next(maxBatch, s, step);
      WorkLess(maxBatch, s, outcomes[0]);
      NextKeepsInv(maxBatch, s, step);
      NextStopComes(maxBatch, s, step);
      ThreadKeeps(maxBatch, s, outcomes[0]);
      hide Next;
      hide Inv;
      hide StopComes;
      hide Work;
      hide Idle;
      hide ThreadStep;
      var m := AloneEnds(maxBatch, next, outcomes[1..]);
      k := m + 1;
      assert outcomes[..k][0] == outcomes[0] && outcomes[..k][1..] == outcomes[1..][..m];
    }
  }

  lemma ThreadKeeps(maxBatch: nat, s: State, outcome: Outcome)
    ensures var t := Next(maxBatch, s, ThreadStep(s, outcome));
      t.accepted == s.accepted && t.abandoned == s.abandoned && t.stopping == s.stopping
  {
    hide Live;
    hide Finishes;
  }

  /**
   * After any run, left alone with the model's outcomes, the thread soon has nothing to do: every accepted request was
   * in a batch and is finished, unless its caller gave up; and if a stop was asked for the thread is gone.
   */
  lemma EverythingIsWorkedOff(maxBatch: nat, steps: seq<Step>, outcomes: seq<Outcome>) returns (k: nat)
    requires maxBatch >= 1 && |outcomes| >= Work(Run(maxBatch, steps))
    ensures k <= |outcomes|
    ensures var s := Run(maxBatch, steps);
      var t := Alone(maxBatch, s, outcomes[..k]);
      && t.accepted == s.accepted && Flatten(t.batches) == t.accepted
      && (forall id: nat | id < |t.accepted| :: id in s.abandoned || IsFinished(t.finishes, id))
      && (s.stopping ==> t.runner.Gone?)
  {
    var s := Run(maxBatch, steps);
    RunKeepsInv(maxBatch, steps);
    RunStopComes(maxBatch, steps);
    hide Run;
    k := AloneEnds(maxBatch, s, outcomes);
    var t := Alone(maxBatch, s, outcomes[..k]);
    hide Alone;
    hide Work;
    IdleIsDone(maxBatch, t);
    hide Inv;
  }

  lemma IdleIsDone(maxBatch: nat, t: State)
    requires Inv(maxBatch, t) && StopComes(t) && Idle(t)
    ensures Flatten(t.batches) == t.accepted && (t.stopping ==> t.runner.Gone?)
    ensures forall id: nat | id < |t.accepted| :: id in t.abandoned || IsFinished(t.finishes, id)
  {
    assert Requests([]) == [];
    assert SentinelLast(t);
    assert InHand(t.runner) == [] && Carried(t.carry) == [];
    assert TakenSoFar(t) == Flatten(t.batches);
    assert Flatten(t.batches) + [] == Flatten(t.batches);
    assert FinishesOk(t) && Conserved(t);
    hide IsFinished;
  }
}
