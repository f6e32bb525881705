/**
 * One loaded model's inference thread: callers queue requests, the thread takes them in batches of
 * equal arguments. Each step is one critical section of a caller or one queue access of the thread,
 * so a run is any interleaving of callers and the thread.
 */
module ModelEntry {
  import opened Options
  import opened Seqs

  /** `id` is the request's place in the order of acceptance. */
  datatype Request = Request(id: nat, frame: int, kwargs: int)

  datatype Item = Ask(request: Request) | Sentinel

  datatype Answer = Result(value: int) | Error

  /** What a model call did: it raised, or it returned some number of results. */
  datatype Outcome = Raised | Results(values: seq<int>)

  datatype Finish = Finish(id: nat, answer: Answer)

  /** The thread collects a batch, holds a complete one, or is between batches or gone. */
  datatype Runner = Between | Filling(batch: seq<Request>) | Complete(batch: seq<Request>) | Gone

  datatype State = State(
    queue: seq<Item>, stopping: bool,
    runner: Runner, carry: Option<Request>, stop: bool,
    accepted: seq<Request>, abandoned: set<nat>,
    batches: seq<seq<Request>>, finishes: seq<Finish>)

  const NewEntry := State([], false, Between, None, false, [], {}, [], [])

  datatype Step =
    | Submit(frame: int, kwargs: int)
    | RequestStop
    | Abandon(id: nat)
    | TakeFirst
    | TakeMore
    | Infer(outcome: Outcome)

  // ---- specification -------------------------------------------------------------------------------

  /** Refused once the entry is stopping, so nothing is queued behind the sentinel. */
  function Submitted(s: State, frame: int, kwargs: int): State {
    if s.stopping then s
    else
      var r := Request(|s.accepted|, frame, kwargs);
      s.(queue := s.queue + [Ask(r)], accepted := s.accepted + [r])
  }

  function StopRequested(s: State): State {
    if s.stopping then s else s.(stopping := true, queue := s.queue + [Sentinel])
  }

  /** The first request of a batch: the one carried over, else the head of the queue. */
  function FirstTaken(s: State): State
    requires s.runner.Between?
  {
    if s.stop then s.(runner := Gone)
    else if s.carry.Some? then s.(runner := Filling([s.carry.value]), carry := None)
    else if s.queue == [] then s
    else
      match s.queue[0]
      case Sentinel => s.(queue := s.queue[1..], runner := Gone)
      case Ask(r) => s.(queue := s.queue[1..], runner := Filling([r]))
  }

  /** One more look at the queue while the batch has room. */
  function MoreTaken(maxBatch: nat, s: State): State
    requires s.runner.Filling? && s.runner.batch != []
  {
    var batch := s.runner.batch;
    if |batch| >= maxBatch || s.queue == [] then s.(runner := Complete(batch))
    else
      match s.queue[0]
      case Sentinel => s.(queue := s.queue[1..], stop := true, runner := Complete(batch))
      case Ask(r) =>
        if r.kwargs != batch[0].kwargs
        then s.(queue := s.queue[1..], carry := Some(r), runner := Complete(batch))
        else s.(queue := s.queue[1..], runner := Filling(batch + [r]))
  }

  function Wanted(abandoned: set<nat>): Request -> bool {
    (r: Request) => r.id !in abandoned
  }

  /** The requests of a complete batch whose callers still wait. */
  function Live(s: State): seq<Request>
    requires s.runner.Complete?
  {
    Filter(Wanted(s.abandoned), s.runner.batch)
  }

  function AnswerOf(outcome: Outcome, live: nat, k: nat): Answer
    requires k < live
  {
    if outcome.Results? && |outcome.values| == live then Result(outcome.values[k]) else Error
  }

  function Finishes(live: seq<Request>, outcome: Outcome): seq<Finish> {
    seq(|live|, k requires 0 <= k < |live| => Finish(live[k].id, AnswerOf(outcome, |live|, k)))
  }

  function Inferred(s: State, outcome: Outcome): State
    requires s.runner.Complete?
  {
    s.(runner := Between, batches := s.batches + [s.runner.batch],
       finishes := s.finishes + Finishes(Live(s), outcome))
  }

  function Next(maxBatch: nat, s: State, step: Step): State {
    match step
    case Submit(frame, kwargs) => Submitted(s, frame, kwargs)
    case RequestStop => StopRequested(s)
    case Abandon(id) => s.(abandoned := s.abandoned + {id})
    case TakeFirst => if s.runner.Between? then FirstTaken(s) else s
    case TakeMore => if s.runner.Filling? && s.runner.batch != [] then MoreTaken(maxBatch, s) else s
    case Infer(outcome) => if s.runner.Complete? then Inferred(s, outcome) else s
  }

  function Run(maxBatch: nat, steps: seq<Step>): State {
    if steps == [] then NewEntry
    else Next(maxBatch, Run(maxBatch, steps[..|steps| - 1]), steps[|steps| - 1])
  }

  // ---- invariant -----------------------------------------------------------------------------------

  function Flatten(batches: seq<seq<Request>>): seq<Request> {
    if batches == [] then [] else Flatten(batches[..|batches| - 1]) + batches[|batches| - 1]
  }

  function Requests(queue: seq<Item>): seq<Request> {
    if queue == [] then []
    else (match queue[0] case Ask(r) => [r] case Sentinel => []) + Requests(queue[1..])
  }

  function InHand(runner: Runner): seq<Request> {
    if runner.Filling? || runner.Complete? then runner.batch else []
  }

  function Carried(carry: Option<Request>): seq<Request> {
    if carry.Some? then [carry.value] else []
  }

  /** Taken by the thread so far, in the order it was taken. */
  function TakenSoFar(s: State): seq<Request> {
    Flatten(s.batches) + InHand(s.runner) + Carried(s.carry)
  }

  /** The batches, what the thread holds and the queue are together the accepted requests, in order. */
  ghost predicate Conserved(s: State) {
    TakenSoFar(s) + Requests(s.queue) == s.accepted
  }

  ghost predicate Numbered(s: State) {
    forall i | 0 <= i < |s.accepted| :: s.accepted[i].id == i
  }

  /** The sentinel is queued once, last, and nothing is left when it was taken. */
  ghost predicate SentinelLast(s: State) {
    && (forall i | 0 <= i < |s.queue| && s.queue[i].Sentinel? :: i == |s.queue| - 1)
    && ((exists i :: 0 <= i < |s.queue| && s.queue[i].Sentinel?) ==> s.stopping)
    && (s.stop || s.runner.Gone? ==> s.stopping && s.queue == [] && s.carry.None?)
  }

  predicate Uniform(maxBatch: nat, batch: seq<Request>) {
    0 < |batch| <= maxBatch && forall i | 0 <= i < |batch| :: batch[i].kwargs == batch[0].kwargs
  }

  ghost predicate BatchesOk(maxBatch: nat, s: State) {
    && (forall b | 0 <= b < |s.batches| :: Uniform(maxBatch, s.batches[b]))
    && (s.runner.Filling? || s.runner.Complete? ==> Uniform(maxBatch, s.runner.batch))
    && (s.runner.Filling? ==> s.carry.None? && !s.stop)
  }

  /** Finished in order of acceptance, so once each; and a request of a finished batch is finished or abandoned. */
  ghost predicate FinishesOk(s: State) {
    && (forall i, j | 0 <= i < j < |s.finishes| :: s.finishes[i].id < s.finishes[j].id)
    && (forall i | 0 <= i < |s.finishes| :: s.finishes[i].id < |Flatten(s.batches)|)
    && (forall id: nat | id < |Flatten(s.batches)| :: id in s.abandoned || IsFinished(s.finishes, id))
  }

  ghost predicate IsFinished(finishes: seq<Finish>, id: nat) {
    exists i :: 0 <= i < |finishes| && finishes[i].id == id
  }

  ghost predicate Inv(maxBatch: nat, s: State) {
    Conserved(s) && Numbered(s) && SentinelLast(s) && BatchesOk(maxBatch, s) && FinishesOk(s)
  }

  // ---- proofs --------------------------------------------------------------------------------------

  lemma {:induction false} RequestsAppend(queue: seq<Item>, item: Item)
    ensures Requests(queue + [item]) == Requests(queue) + Requests([item])
  {
    if queue == [] {
      assert [] + [item] == [item];
    } else {
      RequestsAppend(queue[1..], item);
      assert (queue + [item])[1..] == queue[1..] + [item];
    }
  }

  lemma FlattenAppend(batches: seq<seq<Request>>, batch: seq<Request>)
    ensures Flatten(batches + [batch]) == Flatten(batches) + batch
  {
    assert (batches + [batch])[..|batches|] == batches;
  }

  lemma SubmitKeepsInv(maxBatch: nat, s: State, frame: int, kwargs: int)
    requires Inv(maxBatch, s)
    ensures Inv(maxBatch, Submitted(s, frame, kwargs))
  {
    if !s.stopping {
      var r := Request(|s.accepted|, frame, kwargs);
      RequestsAppend(s.queue, Ask(r));
      assert Requests([Ask(r)]) == [r];
      var s' := Submitted(s, frame, kwargs);
      assert TakenSoFar(s') + Requests(s'.queue) == (TakenSoFar(s) + Requests(s.queue)) + [r];
    }
  }

  lemma StopKeepsInv(maxBatch: nat, s: State)
    requires Inv(maxBatch, s)
    ensures Inv(maxBatch, StopRequested(s))
  {
    if !s.stopping {
      RequestsAppend(s.queue, Sentinel);
      assert Requests([Sentinel]) == [];
    }
  }

  lemma FirstKeepsInv(maxBatch: nat, s: State)
    requires maxBatch >= 1 && Inv(maxBatch, s) && s.runner.Between?
    ensures Inv(maxBatch, FirstTaken(s))
  {
    var s' := FirstTaken(s);
    assert Carried(None) == [] && InHand(Between) == [] && InHand(Gone) == [];
    if s.stop {
    } else if s.carry.Some? {
      assert TakenSoFar(s') == TakenSoFar(s);
    } else if s.queue != [] {
      assert s.queue == [s.queue[0]] + s.queue[1..];
      assert TakenSoFar(s') + Requests(s'.queue) == TakenSoFar(s) + Requests(s.queue);
    }
  }

  lemma AskedTaken(maxBatch: nat, s: State, r: Request)
    requires s.carry.None? && s.runner.Filling? && s.runner.batch != [] && |s.runner.batch| < maxBatch
    requires s.queue != [] && s.queue[0] == Ask(r)
    ensures TakenSoFar(MoreTaken(maxBatch, s)) == TakenSoFar(s) + [r]
  {
    hide Flatten;
  }

  lemma MoreConserves(maxBatch: nat, s: State)
    requires Conserved(s) && s.carry.None? && s.runner.Filling? && s.runner.batch != []
    ensures Conserved(MoreTaken(maxBatch, s))
  {
    if |s.runner.batch| < maxBatch && s.queue != [] {
      var rest := Requests(s.queue[1..]);
      hide Flatten;
      match s.queue[0]
      case Sentinel =>
        assert Requests(s.queue) == [] + rest;
        hide Requests;
        assert TakenSoFar(MoreTaken(maxBatch, s)) == TakenSoFar(s);
      case Ask(r) =>
        assert Requests(s.queue) == [r] + rest;
        hide Requests;
        AskedTaken(maxBatch, s, r);
        hide TakenSoFar;
        assert (TakenSoFar(s) + [r]) + rest == TakenSoFar(s) + ([r] + rest);
    }
  }

  lemma MoreKeepsSentinel(maxBatch: nat, s: State)
    requires SentinelLast(s) && s.carry.None? && !s.stop && s.runner.Filling? && s.runner.batch != []
    ensures SentinelLast(MoreTaken(maxBatch, s))
  {
  }

  lemma MoreKeepsInv(maxBatch: nat, s: State)
    requires Inv(maxBatch, s) && s.runner.Filling? && s.runner.batch != []
    ensures Inv(maxBatch, MoreTaken(maxBatch, s))
  {
    MoreConserves(maxBatch, s);
    MoreKeepsSentinel(maxBatch, s);
    hide Conserved;
    hide SentinelLast;
  }

  /** The batch in hand holds the ids that follow the finished batches. */
  lemma BatchIds(s: State, k: nat)
    requires Conserved(s) && Numbered(s) && s.runner.Complete? && k < |s.runner.batch|
    ensures s.runner.batch[k].id == |Flatten(s.batches)| + k
  {
    var n := |Flatten(s.batches)|;
    assert s.accepted[n + k] == s.runner.batch[k];
  }

  lemma InferKeepsInv(maxBatch: nat, s: State, outcome: Outcome)
    requires Inv(maxBatch, s) && s.runner.Complete?
    ensures Inv(maxBatch, Inferred(s, outcome))
  {
    hide Finishes;
    hide Live;
    InferFinishes(s, outcome);
    hide FinishesOk;
    InferTaken(s, outcome);
    hide TakenSoFar;
    hide Requests;
    hide Flatten;
  }

  lemma InferTaken(s: State, outcome: Outcome)
    requires s.runner.Complete?
    ensures TakenSoFar(Inferred(s, outcome)) == TakenSoFar(s)
  {
    FlattenAppend(s.batches, s.runner.batch);
    hide Flatten;
    hide Finishes;
    hide Live;
  }

  lemma InferFinishes(s: State, outcome: Outcome)
    requires Conserved(s) && Numbered(s) && FinishesOk(s) && s.runner.Complete?
    ensures FinishesOk(Inferred(s, outcome))
  {
    var s' := Inferred(s, outcome);
    var batch, live, n := s.runner.batch, Live(s), |Flatten(s.batches)|;
    FlattenAppend(s.batches, batch);
    forall k: nat | k < |batch|
      ensures batch[k].id == n + k
    {
      BatchIds(s, k);
    }
    hide Flatten;
    LiveIds(batch, s.abandoned, n);
    AppendFinishes(s, s', batch, live, outcome);
    forall id: nat | id < n + |batch|
      ensures id in s.abandoned || IsFinished(s'.finishes, id)
    {
      if id !in s.abandoned {
        FinishFor(s, s', batch, live, outcome, id);
      }
    }
  }

  predicate Rising(requests: seq<Request>) {
    forall i, j | 0 <= i < j < |requests| :: requests[i].id < requests[j].id
  }

  predicate Within(requests: seq<Request>, lo: nat, hi: nat) {
    forall i | 0 <= i < |requests| :: lo <= requests[i].id < hi
  }

  lemma AppendFinishes(s: State, s': State, batch: seq<Request>, live: seq<Request>, outcome: Outcome)
    requires FinishesOk(s) && s'.finishes == s.finishes + Finishes(live, outcome)
    requires Rising(live) && Within(live, |Flatten(s.batches)|, |Flatten(s.batches)| + |batch|)
    ensures forall i, j | 0 <= i < j < |s'.finishes| :: s'.finishes[i].id < s'.finishes[j].id
    ensures forall i | 0 <= i < |s'.finishes| :: s'.finishes[i].id < |Flatten(s.batches)| + |batch|
  {
    hide Flatten;
  }

  lemma FinishFor(s: State, s': State, batch: seq<Request>, live: seq<Request>, outcome: Outcome, id: nat)
    requires FinishesOk(s) && s'.finishes == s.finishes + Finishes(live, outcome)
    requires live == Filter(Wanted(s.abandoned), batch)
    requires forall k | 0 <= k < |batch| :: batch[k].id == |Flatten(s.batches)| + k
    requires id < |Flatten(s.batches)| + |batch| && id !in s.abandoned
    ensures IsFinished(s'.finishes, id)
  {
    var n := |Flatten(s.batches)|;
    hide Flatten;
    hide Filter;
    if id >= n {
      hide FinishesOk;
      var r := batch[id - n];
      assert r.id == id && r in batch;
      assert r in live;
      FinishOf(live, outcome, r, s.finishes);
    } else {
      OldFinish(s.finishes, Finishes(live, outcome), id);
    }
  }

  lemma OldFinish(before: seq<Finish>, more: seq<Finish>, id: nat)
    requires IsFinished(before, id)
    ensures IsFinished(before + more, id)
  {
    var i :| 0 <= i < |before| && before[i].id == id;
    assert (before + more)[i].id == id;
  }

  lemma FinishOf(live: seq<Request>, outcome: Outcome, r: Request, before: seq<Finish>)
    requires r in live
    ensures IsFinished(before + Finishes(live, outcome), r.id)
  {
    var k :| 0 <= k < |live| && live[k] == r;
    assert (before + Finishes(live, outcome))[|before| + k].id == r.id;
  }

  lemma RisingAppend(requests: seq<Request>, last: Request, lo: nat, k: nat)
    requires Rising(requests) && Within(requests, lo, lo + k) && last.id == lo + k
    ensures Rising(requests + [last]) && Within(requests + [last], lo, lo + k + 1)
    ensures Within(requests, lo, lo + k + 1)
  {
  }

  /** Dropping abandoned requests keeps the ids rising. */
  lemma {:induction false} LiveIds(batch: seq<Request>, abandoned: set<nat>, n: nat)
    requires forall k | 0 <= k < |batch| :: batch[k].id == n + k
    ensures var live := Filter(Wanted(abandoned), batch); Rising(live) && Within(live, n, n + |batch|)
  {
    if batch != [] {
      var front, last := batch[..|batch| - 1], batch[|batch| - 1];
      LiveIds(front, abandoned, n);
      var before := Filter(Wanted(abandoned), front);
      assert last.id == n + |front|;
      assert Filter(Wanted(abandoned), batch) == if last.id !in abandoned then before + [last] else before by {
        assert before + [] == before;
      }
      hide Filter;
      RisingAppend(before, last, n, |front|);
    }
  }

  lemma NextKeepsInv(maxBatch: nat, s: State, step: Step)
    requires maxBatch >= 1 && Inv(maxBatch, s)
    ensures Inv(maxBatch, Next(maxBatch, s, step))
  {
    match step
    case Submit(frame, kwargs) => SubmitKeepsInv(maxBatch, s, frame, kwargs); hide Inv;
    case RequestStop => StopKeepsInv(maxBatch, s); hide Inv;
    case Abandon(id) =>
    case TakeFirst => if s.runner.Between? { FirstKeepsInv(maxBatch, s); } hide Inv;
    case TakeMore => if s.runner.Filling? && s.runner.batch != [] { MoreKeepsInv(maxBatch, s); } hide Inv;
    case Infer(outcome) => if s.runner.Complete? { InferKeepsInv(maxBatch, s, outcome); } hide Inv;
  }

  lemma {:induction false} RunKeepsInv(maxBatch: nat, steps: seq<Step>)
    requires maxBatch >= 1
    ensures Inv(maxBatch, Run(maxBatch, steps))
  {
    if steps != [] {
      RunKeepsInv(maxBatch, steps[..|steps| - 1]);
      NextKeepsInv(maxBatch, Run(maxBatch, steps[..|steps| - 1]), steps[|steps| - 1]);
      hide Inv;
      hide Next;
    }
  }

  // ---- what every run promises ---------------------------------------------------------------------

  /**
   * Over every interleaving the batches, what the thread holds and the queue concatenate to the accepted
   * requests in order, and every batch is small enough and of one kind.
   */
  lemma BatchesKeepTheOrder(maxBatch: nat, steps: seq<Step>)
    requires maxBatch >= 1
    ensures var s := Run(maxBatch, steps);
            && TakenSoFar(s) + Requests(s.queue) == s.accepted
            && forall b | 0 <= b < |s.batches| :: Uniform(maxBatch, s.batches[b])
  {
    RunKeepsInv(maxBatch, steps);
    hide Run;
  }

  /** No request is finished twice. */
  lemma FinishedOnce(maxBatch: nat, steps: seq<Step>)
    requires maxBatch >= 1
    ensures var s := Run(maxBatch, steps);
            forall i, j | 0 <= i < j < |s.finishes| :: s.finishes[i].id < s.finishes[j].id
  {
    RunKeepsInv(maxBatch, steps);
    hide Run;
  }

  /**
   * When the thread has gone, every request accepted before the stop was in a batch, and was finished
   * unless its caller had stopped waiting. That includes a request carried over to the next batch.
   */
  lemma NothingLeftBehind(maxBatch: nat, steps: seq<Step>)
    requires maxBatch >= 1 && Run(maxBatch, steps).runner.Gone?
    ensures var s := Run(maxBatch, steps);
            && Flatten(s.batches) == s.accepted
            && forall id: nat | id < |s.accepted| :: id in s.abandoned || IsFinished(s.finishes, id)
  {
    RunKeepsInv(maxBatch, steps);
    var s := Run(maxBatch, steps);
    hide Run;
    assert Requests([]) == [];
    assert TakenSoFar(s) == Flatten(s.batches);
  }

  /**
   * The model is called once for the batch, with the first request's arguments. It raises, returns a wrong number of
   * results, or treats the frames one by one under those arguments.
   */
  ghost predicate FrameByFrame(single: (int, int) -> int, live: seq<Request>, outcome: Outcome) {
    outcome.Results? && |outcome.values| == |live| ==>
      forall k | 0 <= k < |live| :: outcome.values[k] == single(live[k].frame, live[0].kwargs)
  }

  ghost predicate ModelIsFrameByFrame(single: (int, int) -> int, maxBatch: nat, steps: seq<Step>) {
    forall n | 0 <= n < |steps| && steps[n].Infer? ::
      var s := Run(maxBatch, steps[..n]);
      s.runner.Complete? ==> FrameByFrame(single, Live(s), steps[n].outcome)
  }

  /** Every result went to the request it belongs to. */
  ghost predicate OwnResults(single: (int, int) -> int, s: State) {
    forall i | 0 <= i < |s.finishes| && s.finishes[i].answer.Result? ::
      && s.finishes[i].id < |s.accepted|
      && var r := s.accepted[s.finishes[i].id];
         s.finishes[i].answer.value == single(r.frame, r.kwargs)
  }

  /** The requests of a batch agree on the arguments, so the first one's are everyone's. */
  lemma LiveIsUniform(maxBatch: nat, s: State)
    requires Inv(maxBatch, s) && s.runner.Complete?
    ensures forall k | 0 <= k < |Live(s)| :: Live(s)[k].kwargs == Live(s)[0].kwargs
  {
    var live := Live(s);
    assert Uniform(maxBatch, s.runner.batch);
    forall k | 0 <= k < |live|
      ensures live[k].kwargs == s.runner.batch[0].kwargs
    {
      assert live[k] in live && live[k] in s.runner.batch;
    }
  }

  lemma InferOwn(single: (int, int) -> int, maxBatch: nat, s: State, outcome: Outcome)
    requires Inv(maxBatch, s) && s.runner.Complete? && OwnResults(single, s)
    requires FrameByFrame(single, Live(s), outcome)
    ensures OwnResults(single, Inferred(s, outcome))
  {
    var live, n := Live(s), |Flatten(s.batches)|;
    forall k | 0 <= k < |live|
      ensures live[k].id < |s.accepted| && s.accepted[live[k].id] == live[k]
    {
      assert live[k] in live && live[k] in s.runner.batch;
      var j :| 0 <= j < |s.runner.batch| && s.runner.batch[j] == live[k];
      BatchIds(s, j);
      assert s.accepted[n + j] == s.runner.batch[j];
    }
    LiveIsUniform(maxBatch, s);
    hide Inv;
  }

  lemma StepOwn(single: (int, int) -> int, maxBatch: nat, s: State, step: Step)
    requires Inv(maxBatch, s) && OwnResults(single, s)
    requires step.Infer? && s.runner.Complete? ==> FrameByFrame(single, Live(s), step.outcome)
    ensures OwnResults(single, Next(maxBatch, s, step))
  {
    if step.Infer? && s.runner.Complete? {
      InferOwn(single, maxBatch, s, step.outcome);
      hide Inferred;
    } else {
      QuietOwn(single, maxBatch, s, step);
    }
  }

  lemma QuietOwn(single: (int, int) -> int, maxBatch: nat, s: State, step: Step)
    requires OwnResults(single, s) && (step.Infer? ==> !s.runner.Complete?)
    ensures OwnResults(single, Next(maxBatch, s, step))
  {
  }

  /**
   * Batching refines one call at a time: a caller gets what a call for its frame alone, under its own arguments, would
   * return, or an error.
   */
  lemma {:induction false} BatchingIsInvisible(single: (int, int) -> int, maxBatch: nat, steps: seq<Step>)
    requires maxBatch >= 1 && ModelIsFrameByFrame(single, maxBatch, steps)
    ensures OwnResults(single, Run(maxBatch, steps))
  {
    if steps != [] {
      var front, step := steps[..|steps| - 1], steps[|steps| - 1];
      assert forall n | 0 <= n < |front| :: front[..n] == steps[..n] && front[n] == steps[n];
      BatchingIsInvisible(single, maxBatch, front);
      RunKeepsInv(maxBatch, front);
      var s := Run(maxBatch, front);
      assert step.Infer? && s.runner.Complete? ==> FrameByFrame(single, Live(s), step.outcome);
      hide Run;
      hide ModelIsFrameByFrame;
      hide FrameByFrame;
      hide OwnResults;
      hide Inv;
      StepOwn(single, maxBatch, s, step);
      hide Next;
    }
  }

  // ---- the code ------------------------------------------------------------------------------------

  class Entry {
    const maxBatch: nat
    var queue: seq<Item>
    var stopping: bool
    var carry: Option<Request>
    var stop: bool
    var nextId: nat
    ghost var runner: Runner
    ghost var accepted: seq<Request>
    var abandoned: set<nat>
    ghost var batches: seq<seq<Request>>
    var finishes: seq<Finish>

    ghost function Value(): State
      reads this
    {
      State(queue, stopping, runner, carry, stop, accepted, abandoned, batches, finishes)
    }

    ghost predicate Valid()
      reads this
    {
      maxBatch >= 1 && nextId == |accepted| && Inv(maxBatch, Value())
    }

    constructor (maxBatch: nat)
      requires maxBatch >= 1
      ensures Valid() && Value() == NewEntry && this.maxBatch == maxBatch
    {
      this.maxBatch := maxBatch;
      queue, stopping, carry, stop, nextId, abandoned, finishes := [], false, None, false, 0, {}, [];
      runner, accepted, batches := Between, [], [];
    }

    /** Raises (returns false) when the model was released. */
    method SubmitRequest(frame: int, kwargs: int) returns (ok: bool)
      requires Valid()
      modifies this
      ensures Valid() && Value() == Next(maxBatch, old(Value()), Submit(frame, kwargs)) && ok == !old(stopping)
    {
      NextKeepsInv(maxBatch, Value(), Submit(frame, kwargs));
      hide Inv;
      if stopping {
        return false;
      }
      var r := Request(nextId, frame, kwargs);
      queue := queue + [Ask(r)];
      nextId, accepted := nextId + 1, accepted + [r];
      ok := true;
    }

    method StopEntry()
      requires Valid()
      modifies this
      ensures Valid() && Value() == Next(maxBatch, old(Value()), RequestStop)
    {
      NextKeepsInv(maxBatch, Value(), RequestStop);
      hide Inv;
      if stopping {
        return;
      }
      stopping := true;
      queue := queue + [Sentinel];
    }

    /** The head of the run loop; `done` when the thread returns. An empty queue blocks, so it is not called then. */
    method BeginBatch() returns (done: bool, batch: seq<Request>)
      requires Valid() && runner.Between? && (stop || carry.Some? || queue != [])
      modifies this
      ensures Valid() && Value() == Next(maxBatch, old(Value()), TakeFirst)
      ensures if done then runner.Gone? else runner == Filling(batch) && batch != []
    {
      NextKeepsInv(maxBatch, Value(), TakeFirst);
      hide Inv;
      done, batch := false, [];
      if stop {
        done, runner := true, Gone;
        return;
      }
      if carry.Some? {
        batch, carry := [carry.value], None;
      } else {
        var first := queue[0];
        queue := queue[1..];
        if first.Sentinel? {
          done, runner := true, Gone;
          return;
        }
        batch := [first.request];
      }
      runner := Filling(batch);
    }

    /** One round of the filling loop; `full` when the loop is left. */
    method FillOne(batch: seq<Request>) returns (full: bool, more: seq<Request>)
      requires Valid() && runner == Filling(batch) && batch != []
      modifies this
      ensures Valid() && Value() == Next(maxBatch, old(Value()), TakeMore)
      ensures more != [] && runner == if full then Complete(more) else Filling(more)
    {
      NextKeepsInv(maxBatch, Value(), TakeMore);
      hide Inv;
      more := batch;
      if |batch| >= maxBatch || queue == [] {
        full, runner := true, Complete(batch);
        return;
      }
      var nxt := queue[0];
      queue := queue[1..];
      if nxt.Sentinel? {
        stop := true;
        full, runner := true, Complete(batch);
        return;
      }
      if nxt.request.kwargs != batch[0].kwargs {
        carry := Some(nxt.request);
        full, runner := true, Complete(batch);
        return;
      }
      more := batch + [nxt.request];
      full, runner := false, Filling(more);
    }

    /** `outcome` is what the model call did with the live frames. */
    method InferBatch(batch: seq<Request>, outcome: Outcome)
      requires Valid() && runner == Complete(batch)
      modifies this
      ensures Valid() && Value() == Next(maxBatch, old(Value()), Infer(outcome))
    {
      NextKeepsInv(maxBatch, Value(), Infer(outcome));
      hide Inv;
      hide Finishes;
      hide Filter;
      var live := LiveOf(batch);
      FinishAll(live, outcome);
      runner, batches := Between, batches + [batch];
    }

    method LiveOf(batch: seq<Request>) returns (live: seq<Request>)
      ensures live == Filter(Wanted(abandoned), batch)
    {
      live := [];
      for i := 0 to |batch|
        invariant live == Filter(Wanted(abandoned), batch[..i])
      {
        assert batch[..i + 1][..i] == batch[..i];
        if batch[i].id !in abandoned {
          live := live + [batch[i]];
        }
      }
      assert batch[..|batch|] == batch;
    }

    method FinishAll(live: seq<Request>, outcome: Outcome)
      modifies this`finishes
      ensures finishes == old(finishes) + Finishes(live, outcome)
    {
      for k := 0 to |live|
        invariant finishes == old(finishes) + Finishes(live, outcome)[..k]
      {
        if outcome.Raised? || |outcome.values| != |live| {
          finishes := finishes + [Finish(live[k].id, Error)];
        } else {
          finishes := finishes + [Finish(live[k].id, Result(outcome.values[k]))];
        }
      }
      assert Finishes(live, outcome)[..|live|] == Finishes(live, outcome);
    }
  }
}
