/**
 * The engine's event buffer: `send` appends from any camera thread, one worker delivers oldest first.
 * A full buffer drops its oldest message and counts it; the count goes out as an event of its own.
 * Each step below is one critical section of the code, so a run is any interleaving of the threads.
 */
module EventStream {

  datatype Payload = Sent(data: string) | EventsDropped(count: nat)

  /** `id` is the message's identity: its position in the order of enqueuing. */
  datatype Message = Message(id: nat, payload: Payload)

  /** Where the worker thread is between its critical sections. */
  datatype Worker = Waiting | InFlight(message: Message) | Accepted

  datatype State = State(
    queue: seq<Message>, droppedTotal: nat, unreported: nat, worker: Worker,
    enqueued: seq<Payload>,   // everything ever enqueued, by id
    delivered: seq<Message>,  // confirmed by Redis
    overcount: nat)           // finished attempts of messages that had been dropped meanwhile

  const Empty := State([], 0, 0, Waiting, [], [], 0)

  datatype Outcome = Confirmed | Unreachable | Refused

  datatype Step =
    | Send(data: string, valid: bool)
    | Take
    | Finish(outcome: Outcome)
    | Report

  // ---- specification -------------------------------------------------------------------------------

  /** A full buffer drops its oldest message. */
  function MakeRoom(bufferSize: nat, s: State): State
    requires bufferSize >= 1
  {
    if |s.queue| >= bufferSize
    then s.(queue := s.queue[1..], droppedTotal := s.droppedTotal + 1, unreported := s.unreported + 1)
    else s
  }

  function Appended(s: State, payload: Payload): State {
    s.(queue := s.queue + [Message(|s.enqueued|, payload)], enqueued := s.enqueued + [payload])
  }

  function Enqueue(bufferSize: nat, s: State, payload: Payload): State
    requires bufferSize >= 1
  {
    Appended(MakeRoom(bufferSize, s), payload)
  }

  /** Removes the head when it is still the message of the attempt. */
  function Without(queue: seq<Message>, message: Message): seq<Message> {
    if queue != [] && queue[0] == message then queue[1..] else queue
  }

  function Finished(s: State, outcome: Outcome): State
    requires s.worker.InFlight?
  {
    var m := s.worker.message;
    var late := if IsHead(s.queue, m) then 0 else 1;
    match outcome
    case Unreachable => s.(worker := Waiting)
    case Refused =>
      s.(queue := Without(s.queue, m), droppedTotal := s.droppedTotal + 1, unreported := s.unreported + 1,
         worker := Waiting, overcount := s.overcount + late)
    case Confirmed =>
      s.(queue := Without(s.queue, m), delivered := s.delivered + [m], worker := Accepted,
         overcount := s.overcount + late)
  }

  predicate IsHead(queue: seq<Message>, m: Message) {
    queue != [] && queue[0] == m
  }

  function ReportDrops(bufferSize: nat, s: State): State
    requires bufferSize >= 1
  {
    var idle := s.(worker := Waiting);
    if s.unreported == 0 then idle
    else Enqueue(bufferSize, idle.(unreported := 0), EventsDropped(s.unreported))
  }

  /** A step that the worker cannot take now changes nothing. */
  function Next(bufferSize: nat, s: State, step: Step): State
    requires bufferSize >= 1
  {
    match step
    case Send(data, valid) => if valid then Enqueue(bufferSize, s, Payload.Sent(data)) else s
    case Take => if s.worker.Waiting? && s.queue != [] then s.(worker := InFlight(s.queue[0])) else s
    case Finish(outcome) => if s.worker.InFlight? then Finished(s, outcome) else s
    case Report => if s.worker.Accepted? then ReportDrops(bufferSize, s) else s
  }

  function Run(bufferSize: nat, steps: seq<Step>): State
    requires bufferSize >= 1
  {
    if steps == [] then Empty
    else Next(bufferSize, Run(bufferSize, steps[..|steps| - 1]), steps[|steps| - 1])
  }

  /** The drops announced by the reports among `payloads`. */
  function Announced(payloads: seq<Payload>): nat {
    if payloads == [] then 0
    else Announced(payloads[..|payloads| - 1])
         + match payloads[|payloads| - 1] case EventsDropped(count) => count case Sent(_) => 0
  }

  // ---- invariant -----------------------------------------------------------------------------------

  predicate Ordered(messages: seq<Message>) {
    forall i, j | 0 <= i < j < |messages| :: messages[i].id < messages[j].id
  }

  predicate WasEnqueued(m: Message, enqueued: seq<Payload>) {
    m.id < |enqueued| && m.payload == enqueued[m.id]
  }

  predicate Genuine(messages: seq<Message>, enqueued: seq<Payload>) {
    forall i | 0 <= i < |messages| :: WasEnqueued(messages[i], enqueued)
  }

  /** Everything in `a` is older than everything in `b`. */
  predicate Before(a: seq<Message>, b: seq<Message>) {
    forall i, j | 0 <= i < |a| && 0 <= j < |b| :: a[i].id < b[j].id
  }

  ghost predicate InOrder(s: State) {
    && Ordered(s.queue) && Genuine(s.queue, s.enqueued)
    && Ordered(s.delivered) && Genuine(s.delivered, s.enqueued)
    && Before(s.delivered, s.queue)
  }

  /** The message in flight is undelivered, and is the head unless it was dropped meanwhile. */
  ghost predicate FlightOk(s: State) {
    s.worker.InFlight? ==>
      && (s.queue != [] ==> s.worker.message == s.queue[0] || s.worker.message.id < s.queue[0].id)
      && WasEnqueued(s.worker.message, s.enqueued)
      && (forall i | 0 <= i < |s.delivered| :: s.delivered[i].id < s.worker.message.id)
  }

  ghost predicate Counted(s: State) {
    && |s.enqueued| + s.overcount == |s.delivered| + s.droppedTotal + |s.queue|
    && s.droppedTotal == s.unreported + Announced(s.enqueued)
  }

  ghost predicate Inv(bufferSize: nat, s: State) {
    |s.queue| <= bufferSize && InOrder(s) && FlightOk(s) && Counted(s)
  }

  lemma EmptyKeepsInv(bufferSize: nat)
    ensures Inv(bufferSize, Empty)
  {
  }

  lemma MakeRoomKeepsOrder(bufferSize: nat, s: State)
    requires bufferSize >= 1 && |s.queue| <= bufferSize && InOrder(s) && FlightOk(s)
    ensures var s' := MakeRoom(bufferSize, s);
            |s'.queue| < bufferSize && InOrder(s') && FlightOk(s')
  {
  }

  lemma AppendedKeepsOrder(s: State, payload: Payload)
    requires InOrder(s) && FlightOk(s)
    ensures InOrder(Appended(s, payload)) && FlightOk(Appended(s, payload))
  {
    var s' := Appended(s, payload);
    assert forall i | 0 <= i < |s.enqueued| :: s'.enqueued[i] == s.enqueued[i];
  }

  lemma EnqueueKeepsOrder(bufferSize: nat, s: State, payload: Payload)
    requires bufferSize >= 1 && |s.queue| <= bufferSize && InOrder(s) && FlightOk(s)
    ensures var s' := Enqueue(bufferSize, s, payload);
            |s'.queue| <= bufferSize && InOrder(s') && FlightOk(s')
  {
    MakeRoomKeepsOrder(bufferSize, s);
    AppendedKeepsOrder(MakeRoom(bufferSize, s), payload);
    hide InOrder;
    hide FlightOk;
  }

  lemma EnqueueCounts(bufferSize: nat, s: State, payload: Payload)
    requires bufferSize >= 1
    ensures var s' := Enqueue(bufferSize, s, payload);
            && Announced(s'.enqueued) == Announced(s.enqueued) + Announced([payload])
            && |s'.enqueued| == |s.enqueued| + 1 && s'.overcount == s.overcount && s'.delivered == s.delivered
            && s'.droppedTotal + |s'.queue| == s.droppedTotal + |s.queue| + 1
            && s'.droppedTotal - s'.unreported == s.droppedTotal - s.unreported
  {
    assert (s.enqueued + [payload])[..|s.enqueued|] == s.enqueued;
    assert [payload][..0] == [];
  }

  /** Taking the attempted message off leaves newer messages only, one fewer when it was still the head. */
  lemma WithoutFacts(s: State)
    requires InOrder(s) && FlightOk(s) && s.worker.InFlight?
    ensures var left := Without(s.queue, s.worker.message);
            && Ordered(left) && Genuine(left, s.enqueued) && Before(s.delivered, left)
            && |left| == |s.queue| - (if IsHead(s.queue, s.worker.message) then 1 else 0)
            && forall i | 0 <= i < |left| :: s.worker.message.id < left[i].id
  {
  }

  lemma ConfirmedKeepsOrder(s: State)
    requires InOrder(s) && FlightOk(s) && s.worker.InFlight?
    ensures InOrder(Finished(s, Confirmed))
  {
    WithoutFacts(s);
    hide Without;
  }

  lemma RefusedKeepsOrder(s: State)
    requires InOrder(s) && FlightOk(s) && s.worker.InFlight?
    ensures InOrder(Finished(s, Refused))
  {
    WithoutFacts(s);
    hide Without;
  }

  lemma FinishedKeepsInv(bufferSize: nat, s: State, outcome: Outcome)
    requires Inv(bufferSize, s) && s.worker.InFlight?
    ensures Inv(bufferSize, Finished(s, outcome))
  {
    WithoutFacts(s);
    hide Without;
    match outcome
    case Unreachable =>
    case Refused =>
      RefusedKeepsOrder(s);
      hide InOrder;
    case Confirmed =>
      ConfirmedKeepsOrder(s);
      hide InOrder;
  }

  lemma ReportKeepsInv(bufferSize: nat, s: State)
    requires bufferSize >= 1 && Inv(bufferSize, s) && s.worker.Accepted?
    ensures Inv(bufferSize, ReportDrops(bufferSize, s))
  {
    if s.unreported > 0 {
      var cleared := s.(worker := Waiting, unreported := 0);
      EnqueueKeepsOrder(bufferSize, cleared, EventsDropped(s.unreported));
      EnqueueCounts(bufferSize, cleared, EventsDropped(s.unreported));
      hide Enqueue;
      assert Announced([EventsDropped(s.unreported)]) == s.unreported;
    }
  }

  lemma NextKeepsInv(bufferSize: nat, s: State, step: Step)
    requires bufferSize >= 1 && Inv(bufferSize, s)
    ensures Inv(bufferSize, Next(bufferSize, s, step))
  {
    match step
    case Send(data, valid) =>
      EnqueueKeepsOrder(bufferSize, s, Payload.Sent(data));
      EnqueueCounts(bufferSize, s, Payload.Sent(data));
      assert Announced([Payload.Sent(data)]) == 0;
      hide Enqueue;
      hide InOrder;
      hide FlightOk;
    case Take =>
    case Finish(outcome) =>
      if s.worker.InFlight? {
        FinishedKeepsInv(bufferSize, s, outcome);
        hide Finished;
        hide Inv;
      }
    case Report =>
      if s.worker.Accepted? {
        ReportKeepsInv(bufferSize, s);
        hide ReportDrops;
        hide Inv;
      }
  }

  lemma {:induction false} RunKeepsInv(bufferSize: nat, steps: seq<Step>)
    requires bufferSize >= 1
    ensures Inv(bufferSize, Run(bufferSize, steps))
  {
    if steps != [] {
      RunKeepsInv(bufferSize, steps[..|steps| - 1]);
      NextKeepsInv(bufferSize, Run(bufferSize, steps[..|steps| - 1]), steps[|steps| - 1]);
      hide Inv;
      hide Next;
    }
  }

  // ---- what every run promises ---------------------------------------------------------------------

  /** Over every interleaving the buffer holds at most `bufferSize` messages, also while one is in flight. */
  lemma BufferIsBounded(bufferSize: nat, steps: seq<Step>)
    requires bufferSize >= 1
    ensures |Run(bufferSize, steps).queue| <= bufferSize
  {
    RunKeepsInv(bufferSize, steps);
    hide Run;
  }

  /** Confirmed deliveries are the enqueued messages themselves, in order and without duplicates. */
  lemma DeliveriesAreInOrder(bufferSize: nat, steps: seq<Step>)
    requires bufferSize >= 1
    ensures var s := Run(bufferSize, steps);
            Ordered(s.delivered) && Genuine(s.delivered, s.enqueued) && Before(s.delivered, s.queue)
  {
    RunKeepsInv(bufferSize, steps);
    hide Run;
  }

  /**
   * Nothing is lost uncounted: the messages neither delivered nor waiting are the drop count less the
   * attempts that finished after their message had already been dropped; and every counted drop is
   * either announced by an enqueued report or waits for the next one.
   */
  lemma LossIsCounted(bufferSize: nat, steps: seq<Step>)
    requires bufferSize >= 1
    ensures var s := Run(bufferSize, steps);
            && |s.enqueued| - |s.delivered| - |s.queue| == s.droppedTotal - s.overcount
            && s.droppedTotal == s.unreported + Announced(s.enqueued)
  {
    RunKeepsInv(bufferSize, steps);
    hide Run;
  }

  // ---- when a drop is counted that is none ---------------------------------------------------------

  /** The buffer holds the newest messages; the one in flight is the head until too many have come after it. */
  ghost predicate Newest(bufferSize: nat, s: State) {
    && |s.queue| <= bufferSize && |s.queue| <= |s.enqueued|
    && (forall i | 0 <= i < |s.queue| :: s.queue[i].id == |s.enqueued| - |s.queue| + i)
    && (s.worker.InFlight? ==>
          && (s.queue != [] && s.queue[0].id == s.worker.message.id ==> s.queue[0] == s.worker.message)
          && (IsHead(s.queue, s.worker.message) <==> |s.enqueued| <= s.worker.message.id + bufferSize))
  }

  lemma EnqueueKeepsNewest(bufferSize: nat, s: State, payload: Payload)
    requires bufferSize >= 1 && Newest(bufferSize, s)
    ensures Newest(bufferSize, Enqueue(bufferSize, s, payload))
  {
  }

  lemma NextKeepsNewest(bufferSize: nat, s: State, step: Step)
    requires bufferSize >= 1 && Newest(bufferSize, s)
    ensures Newest(bufferSize, Next(bufferSize, s, step))
  {
    match step
    case Send(data, valid) =>
      EnqueueKeepsNewest(bufferSize, s, Payload.Sent(data));
      hide Enqueue;
    case Take =>
    case Finish(outcome) =>
    case Report =>
      var cleared := s.(worker := Waiting, unreported := 0);
      assert Newest(bufferSize, cleared);
      EnqueueKeepsNewest(bufferSize, cleared, EventsDropped(s.unreported));
      hide Enqueue;
  }

  lemma {:induction false} RunKeepsNewest(bufferSize: nat, steps: seq<Step>)
    requires bufferSize >= 1
    ensures Newest(bufferSize, Run(bufferSize, steps))
  {
    if steps != [] {
      RunKeepsNewest(bufferSize, steps[..|steps| - 1]);
      NextKeepsNewest(bufferSize, Run(bufferSize, steps[..|steps| - 1]), steps[|steps| - 1]);
      hide Newest;
      hide Next;
    }
  }

  /** The message taken at step `t` is in flight until step `n`, which ends its attempt with an answer. */
  ghost predicate Attempt(bufferSize: nat, steps: seq<Step>, t: nat, n: nat)
    requires bufferSize >= 1
  {
    && t < n < |steps| && steps[t].Take? && Run(bufferSize, steps[..t]).worker.Waiting?
    && (forall k | t < k <= n :: Run(bufferSize, steps[..k]).worker.InFlight?)
    && steps[n].Finish? && !steps[n].outcome.Unreachable?
  }

  /** While each message is in flight, no more messages come than the buffer had room for when it was taken. */
  ghost predicate NoLateFinish(bufferSize: nat, steps: seq<Step>)
    requires bufferSize >= 1
  {
    forall t: nat, n: nat | Attempt(bufferSize, steps, t, n) ::
      var taken := Run(bufferSize, steps[..t]);
      |Run(bufferSize, steps[..n]).enqueued| - |taken.enqueued| <= bufferSize - |taken.queue|
  }

  lemma RunStep(bufferSize: nat, steps: seq<Step>, n: nat)
    requires bufferSize >= 1 && n < |steps|
    ensures Run(bufferSize, steps[..n + 1]) == Next(bufferSize, Run(bufferSize, steps[..n]), steps[n])
  {
    assert steps[..n + 1][..n] == steps[..n];
    hide Next;
  }

  /** In flight is what was the head when it was taken. */
  lemma {:induction false} FlightIsTaken(bufferSize: nat, steps: seq<Step>, t: nat, n: nat)
    requires bufferSize >= 1 && t < n <= |steps| && steps[t].Take? && Run(bufferSize, steps[..t]).worker.Waiting?
    requires forall k | t < k <= n :: Run(bufferSize, steps[..k]).worker.InFlight?
    ensures var taken := Run(bufferSize, steps[..t]);
      taken.queue != [] && Run(bufferSize, steps[..n]).worker == InFlight(taken.queue[0])
  {
    RunStep(bufferSize, steps, n - 1);
    if n - 1 > t {
      FlightIsTaken(bufferSize, steps, t, n - 1);
    }
    hide Run;
  }

  lemma {:induction false} TakenAt(bufferSize: nat, steps: seq<Step>, n: nat) returns (t: nat)
    requires bufferSize >= 1 && n <= |steps| && Run(bufferSize, steps[..n]).worker.InFlight?
    ensures t < n && steps[t].Take? && Run(bufferSize, steps[..t]).worker.Waiting?
    ensures forall k | t < k <= n :: Run(bufferSize, steps[..k]).worker.InFlight?
  {
    assert n > 0;
    RunStep(bufferSize, steps, n - 1);
    if Run(bufferSize, steps[..n - 1]).worker.InFlight? {
      t := TakenAt(bufferSize, steps, n - 1);
    } else {
      t := n - 1;
    }
    hide Run;
  }

  /** An attempt ends late exactly when more messages came than there was room for. */
  lemma LateIff(bufferSize: nat, steps: seq<Step>, t: nat, n: nat)
    requires bufferSize >= 1 && Attempt(bufferSize, steps, t, n)
    ensures var taken, s := Run(bufferSize, steps[..t]), Run(bufferSize, steps[..n]);
      && s.worker.InFlight?
      && (IsHead(s.queue, s.worker.message) <==> |s.enqueued| - |taken.enqueued| <= bufferSize - |taken.queue|)
  {
    FlightIsTaken(bufferSize, steps, t, n);
    RunKeepsNewest(bufferSize, steps[..t]);
    RunKeepsNewest(bufferSize, steps[..n]);
    hide Run;
  }

  lemma AttemptFront(bufferSize: nat, front: seq<Step>, last: Step, t: nat, n: nat)
    requires bufferSize >= 1 && n < |front|
    ensures Attempt(bufferSize, front + [last], t, n) <==> Attempt(bufferSize, front, t, n)
  {
    var steps := front + [last];
    assert forall k | 0 <= k <= |front| :: steps[..k] == front[..k];
    hide Run;
  }

  lemma NoLateFinishStep(bufferSize: nat, front: seq<Step>, last: Step)
    requires bufferSize >= 1
    ensures var s := Run(bufferSize, front);
      NoLateFinish(bufferSize, front + [last]) <==>
      NoLateFinish(bufferSize, front)
      && (last.Finish? && !last.outcome.Unreachable? && s.worker.InFlight? ==> IsHead(s.queue, s.worker.message))
  {
    var steps := front + [last];
    var n := |front|;
    assert forall k | 0 <= k <= n :: steps[..k] == front[..k];
    assert front[..n] == front;
    forall t: nat, m: nat | m < n
      ensures Attempt(bufferSize, steps, t, m) <==> Attempt(bufferSize, front, t, m)
    {
      AttemptFront(bufferSize, front, last, t, m);
    }
    forall t: nat | Attempt(bufferSize, steps, t, n)
      ensures var taken, s := Run(bufferSize, steps[..t]), Run(bufferSize, steps[..n]);
        && s.worker.InFlight?
        && (IsHead(s.queue, s.worker.message) <==> |s.enqueued| - |taken.enqueued| <= bufferSize - |taken.queue|)
    {
      LateIff(bufferSize, steps, t, n);
    }
    if last.Finish? && !last.outcome.Unreachable? && Run(bufferSize, front).worker.InFlight? {
      var t := TakenAt(bufferSize, steps, n);
      assert Attempt(bufferSize, steps, t, n);
    }
    hide Run;
  }

  /** The drop count is exact if and only if no attempt ended late. */
  lemma {:induction false} OvercountMeansLateFinish(bufferSize: nat, steps: seq<Step>)
    requires bufferSize >= 1
    ensures Run(bufferSize, steps).overcount == 0 <==> NoLateFinish(bufferSize, steps)
  {
    if steps != [] {
      var front, last := steps[..|steps| - 1], steps[|steps| - 1];
      assert steps == front + [last];
      var s := Run(bufferSize, front);
      assert Run(bufferSize, steps) == Next(bufferSize, s, last);
      hide Run;
      hide NoLateFinish;
      OvercountMeansLateFinish(bufferSize, front);
      NextOvercount(bufferSize, s, last);
      NoLateFinishStep(bufferSize, front, last);
      hide Next;
    }
  }

  lemma NextOvercount(bufferSize: nat, s: State, step: Step)
    requires bufferSize >= 1
    ensures Next(bufferSize, s, step).overcount == s.overcount +
      if step.Finish? && !step.outcome.Unreachable? && s.worker.InFlight? && !IsHead(s.queue, s.worker.message) then 1 else 0
  {
  }

  /** Buffer of one: a message dropped in flight and then delivered is both delivered and counted as dropped. */
  lemma LateFinishIsCountedTwice()
    ensures var s := Run(1, [Send("a", true), Take, Send("b", true), Finish(Confirmed)]);
            s.droppedTotal == 1 && |s.delivered| == 1 && |s.queue| == 1 && |s.enqueued| == 2 && s.overcount == 1
  {
    var steps := [Send("a", true), Take, Send("b", true), Finish(Confirmed)];
    assert steps[..3] == [Send("a", true), Take, Send("b", true)];
    assert steps[..3][..2] == [Send("a", true), Take];
    assert steps[..3][..2][..1] == [Send("a", true)];
    assert steps[..3][..2][..1][..0] == [];
    var a, b := Message(0, Payload.Sent("a")), Message(1, Payload.Sent("b"));
    assert Run(1, []) == Empty;
    assert Run(1, [Send("a", true)]) == Empty.(queue := [a], enqueued := [a.payload]);
    assert Run(1, [Send("a", true), Take]) == Empty.(queue := [a], enqueued := [a.payload], worker := InFlight(a));
  }

  // ---- what is dropped, delivered and kept ---------------------------------------------------------

  /** A message comes, sent or a report, and the buffer is full. */
  predicate MeetsFull(bufferSize: nat, s: State, step: Step) {
    && |s.queue| >= bufferSize
    && ((step.Send? && step.valid) || (step.Report? && s.worker.Accepted? && s.unreported > 0))
  }

  predicate Answered(s: State, step: Step, outcome: Outcome) {
    step == Finish(outcome) && s.worker.InFlight?
  }

  /** At how many steps of the run a message met a full buffer. */
  function FullSteps(bufferSize: nat, steps: seq<Step>): nat
    requires bufferSize >= 1
  {
    if steps == [] then 0
    else
      var front, last := steps[..|steps| - 1], steps[|steps| - 1];
      FullSteps(bufferSize, front) + if MeetsFull(bufferSize, Run(bufferSize, front), last) then 1 else 0
  }

  /** The attempts of the run that had this outcome. */
  function Answers(bufferSize: nat, steps: seq<Step>, outcome: Outcome): nat
    requires bufferSize >= 1
  {
    if steps == [] then 0
    else
      var front, last := steps[..|steps| - 1], steps[|steps| - 1];
      Answers(bufferSize, front, outcome) + if Answered(Run(bufferSize, front), last, outcome) then 1 else 0
  }

  /** What the valid sends of the run were given, in order. */
  function ValidSends(steps: seq<Step>): seq<string> {
    if steps == [] then []
    else
      var last := steps[|steps| - 1];
      ValidSends(steps[..|steps| - 1]) + if last.Send? && last.valid then [last.data] else []
  }

  /** The data of the payloads that are not reports. */
  function SentData(payloads: seq<Payload>): seq<string> {
    if payloads == [] then []
    else
      var last := payloads[|payloads| - 1];
      SentData(payloads[..|payloads| - 1]) + if last.Sent? then [last.data] else []
  }

  lemma NextDrops(bufferSize: nat, s: State, step: Step)
    requires bufferSize >= 1
    ensures var t := Next(bufferSize, s, step);
      && t.droppedTotal == s.droppedTotal + (if MeetsFull(bufferSize, s, step) then 1 else 0)
           + (if Answered(s, step, Refused) then 1 else 0)
      && |t.delivered| == |s.delivered| + (if Answered(s, step, Confirmed) then 1 else 0)
  {
  }

  lemma NextSends(bufferSize: nat, s: State, step: Step)
    requires bufferSize >= 1
    ensures SentData(Next(bufferSize, s, step).enqueued) ==
      SentData(s.enqueued) + if step.Send? && step.valid then [step.data] else []
  {
    var t := Next(bufferSize, s, step);
    if t.enqueued != s.enqueued {
      assert t.enqueued[..|s.enqueued|] == s.enqueued;
    }
  }

  /**
   * The drop count is exactly the messages that met a full buffer and the attempts that Redis refused; while Redis is
   * unreachable nothing is dropped. What is delivered is what was confirmed, what is buffered is what was validly sent.
   */
  lemma {:induction false} DropsAreFullOrRefused(bufferSize: nat, steps: seq<Step>)
    requires bufferSize >= 1
    ensures var s := Run(bufferSize, steps);
      && s.droppedTotal == FullSteps(bufferSize, steps) + Answers(bufferSize, steps, Refused)
      && |s.delivered| == Answers(bufferSize, steps, Confirmed)
      && SentData(s.enqueued) == ValidSends(steps)
  {
    if steps != [] {
      var front, last := steps[..|steps| - 1], steps[|steps| - 1];
      DropsAreFullOrRefused(bufferSize, front);
      NextDrops(bufferSize, Run(bufferSize, front), last);
      NextSends(bufferSize, Run(bufferSize, front), last);
      hide Next;
      hide SentData;
    }
  }

  /** What left the buffer in flight was dropped, and only then a finish can be late. */
  ghost predicate LateOnlyIfDropped(s: State) {
    && (s.worker.InFlight? && !IsHead(s.queue, s.worker.message) ==> s.droppedTotal > 0)
    && (s.overcount > 0 ==> s.droppedTotal > 0)
  }

  lemma {:induction false} LateMeansDropped(bufferSize: nat, steps: seq<Step>)
    requires bufferSize >= 1
    ensures LateOnlyIfDropped(Run(bufferSize, steps))
  {
    if steps != [] {
      LateMeansDropped(bufferSize, steps[..|steps| - 1]);
      NextLateOnlyIfDropped(bufferSize, Run(bufferSize, steps[..|steps| - 1]), steps[|steps| - 1]);
      hide Next;
    }
  }

  lemma NextLateOnlyIfDropped(bufferSize: nat, s: State, step: Step)
    requires bufferSize >= 1 && LateOnlyIfDropped(s)
    ensures LateOnlyIfDropped(Next(bufferSize, s, step))
  {
  }

  lemma {:induction false} OrderedAbove(messages: seq<Message>, i: nat)
    requires Ordered(messages) && i < |messages|
    ensures messages[i].id >= i
  {
    if i > 0 {
      OrderedAbove(messages, i - 1);
    }
  }

  lemma {:induction false} OrderedBelow(messages: seq<Message>, i: nat, n: nat)
    requires Ordered(messages) && i < |messages| == n && forall j | 0 <= j < n :: messages[j].id < n
    ensures messages[i].id <= i
    decreases n - i
  {
    if i < n - 1 {
      OrderedBelow(messages, i + 1, n);
    }
  }

  /** While nothing meets a full buffer and nothing is refused, every message is delivered or waits, in order. */
  lemma NothingIsLost(bufferSize: nat, steps: seq<Step>, i: nat)
    requires bufferSize >= 1 && FullSteps(bufferSize, steps) == Answers(bufferSize, steps, Refused) == 0
    requires i < |Run(bufferSize, steps).enqueued|
    ensures var s := Run(bufferSize, steps);
      |s.delivered + s.queue| == |s.enqueued| && (s.delivered + s.queue)[i] == Message(i, s.enqueued[i])
  {
    RunKeepsInv(bufferSize, steps);
    DropsAreFullOrRefused(bufferSize, steps);
    LateMeansDropped(bufferSize, steps);
    var s := Run(bufferSize, steps);
    hide Run;
    var all := s.delivered + s.queue;
    assert |all| == |s.enqueued|;
    assert Ordered(all) && Genuine(all, s.enqueued);
    OrderedAbove(all, i);
    OrderedBelow(all, i, |all|);
    assert WasEnqueued(all[i], s.enqueued);
  }

  /** After a confirmed delivery the report announces every drop counted so far. */
  lemma ReportAnnouncesAll(bufferSize: nat, steps: seq<Step>)
    requires bufferSize >= 1 && Run(bufferSize, steps).worker.Accepted?
    ensures var s := Run(bufferSize, steps);
      Announced(Next(bufferSize, s, Report).enqueued) == s.droppedTotal
  {
    RunKeepsInv(bufferSize, steps);
    var s := Run(bufferSize, steps);
    hide Run;
    if s.unreported > 0 {
      EnqueueCounts(bufferSize, s.(worker := Waiting, unreported := 0), EventsDropped(s.unreported));
      assert Announced([EventsDropped(s.unreported)]) == s.unreported by {
        assert [EventsDropped(s.unreported)][..0] == [];
      }
      hide Enqueue;
    }
  }

  // ---- the code ------------------------------------------------------------------------------------

  class Buffer {
    const bufferSize: nat
    var queue: seq<Message>
    var droppedTotal: nat
    var unreported: nat
    ghost var worker: Worker
    var nextId: nat
    ghost var enqueued: seq<Payload>
    ghost var delivered: seq<Message>
    ghost var overcount: nat

    ghost predicate Valid()
      reads this
    {
      bufferSize >= 1 && nextId == |enqueued| && Inv(bufferSize, Value())
    }

    ghost function Value(): State
      reads this
    {
      State(queue, droppedTotal, unreported, worker, enqueued, delivered, overcount)
    }

    constructor (bufferSize: nat)
      requires bufferSize >= 1
      ensures this.bufferSize == bufferSize && Value() == Empty
      ensures Valid()
    {
      this.bufferSize := bufferSize;
      queue, droppedTotal, unreported, worker := [], 0, 0, Waiting;
      nextId, enqueued, delivered, overcount := 0, [], [], 0;
    }

    /** Called with the lock held. */
    method Append(payload: Payload)
      requires bufferSize >= 1 && nextId == |enqueued|
      modifies this
      ensures Value() == Enqueue(bufferSize, old(Value()), payload) && nextId == |enqueued|
    {
      if |queue| >= bufferSize {
        queue := queue[1..];
        droppedTotal := droppedTotal + 1;
        unreported := unreported + 1;
      }
      queue := queue + [Message(nextId, payload)];
      nextId, enqueued := nextId + 1, enqueued + [payload];
    }

    /** `valid` is the verdict of the contract check; a violation or a crash of the check drops the message uncounted. */
    method Send(data: string, valid: bool)
      requires Valid()
      modifies this
      ensures Valid() && Value() == Next(bufferSize, old(Value()), Step.Send(data, valid))
    {
      NextKeepsInv(bufferSize, Value(), Step.Send(data, valid));
      hide Inv;
      if !valid {
        return;
      }
      Append(Payload.Sent(data));
    }

    method TakeHead() returns (message: Message)
      requires Valid() && worker.Waiting? && queue != []
      modifies this`worker
      ensures Valid() && Value() == Next(bufferSize, old(Value()), Take) && worker == InFlight(message)
    {
      NextKeepsInv(bufferSize, Value(), Take);
      hide Inv;
      message := queue[0];
      worker := InFlight(message);
    }

    /** The critical section after the attempt to deliver `message`. */
    method Attempted(message: Message, outcome: Outcome)
      requires Valid() && worker == InFlight(message)
      modifies this
      ensures Valid() && Value() == Next(bufferSize, old(Value()), Finish(outcome))
    {
      NextKeepsInv(bufferSize, Value(), Finish(outcome));
      hide Inv;
      worker := Waiting;
      if outcome.Unreachable? {
        return;
      }
      overcount := overcount + if IsHead(queue, message) then 0 else 1;
      if queue != [] && queue[0] == message {
        queue := queue[1..];
      }
      if outcome.Refused? {
        droppedTotal := droppedTotal + 1;
        unreported := unreported + 1;
      } else {
        delivered := delivered + [message];
        worker := Accepted;
      }
    }

    method ReportDropped()
      requires Valid() && worker.Accepted?
      modifies this
      ensures Valid() && Value() == Next(bufferSize, old(Value()), Report)
    {
      NextKeepsInv(bufferSize, Value(), Report);
      hide Inv;
      worker := Waiting;
      var count := unreported;
      unreported := 0;
      if count == 0 {
        return;
      }
      Append(EventsDropped(count));
    }
  }
}
