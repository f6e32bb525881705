/**
 * The ingest service and its consumer as they run: loops over a batch, over the entries one by one and over the
 * reads, proved against the steps of `IngestConsumer`; and what a transaction announces.
 */
module IngestService {
  import opened IngestConsumer
  import opened IngestOrder
  import opened IngestTables
  import opened Ints
  import opened Options
  import opened Seqs

  // ---- what a transaction announces -----------------------------------------------------------------------

  datatype Shape = EventShape | IntervalShape | MetricShape

  datatype Summary = Summary(events: seq<Message>, cameras: set<int>, useCases: set<UseCase>, shapes: set<Shape>)

  const Nothing := Summary([], {}, {}, {})

  function Noted(c: Summary, shape: Shape, m: Message): Summary {
    Summary(c.events, if CameraOf(m).Some? then c.cameras + {CameraOf(m).value} else c.cameras,
            c.useCases + {m.useCase}, c.shapes + {shape})
  }

  /** A first engine_started that ends some interval. */
  predicate EndsSome(cams: Cameras, t: Tables, m: Message) {
    Inserts(cams, t, m) && IsRestart(m)
    && exists s :: s in t.intervals && EndsAtRestart(cams, t.intervals[s], m.kind.engineGroup, m.time)
  }

  function Collected(cams: Cameras, t: Tables, c: Summary, m: Message): Summary {
    if !Known(cams, m) then c
    else
      match m
      case Event(_, _, _, _, _, _, _) =>
        if !Inserts(cams, t, m) then c
        else
          var e := Noted(c.(events := c.events + [m]), EventShape, m);
          if EndsSome(cams, t, m) then Noted(e, IntervalShape, m) else e
      case Open(session, _, _, _, _, _) => if session in t.intervals then c else Noted(c, IntervalShape, m)
      case Close(session, _, _, _, _, _) => if IsOpen(t, session) then Noted(c, IntervalShape, m) else c
      case Metric(_, _, _, _, _) => Noted(c, MetricShape, m)
  }

  function CollectedAll(cams: Cameras, t: Tables, ms: seq<Message>): Summary {
    if ms == [] then Nothing
    else Collected(cams, ApplyAll(cams, t, ms[..|ms| - 1]), CollectedAll(cams, t, ms[..|ms| - 1]), ms[|ms| - 1])
  }

  ghost predicate WritesMetric(cams: Cameras, ms: seq<Message>) {
    exists i :: 0 <= i < |ms| && !NoMetric(cams, ms[i])
  }

  lemma OneIsSilentIff(cams: Cameras, t: Tables, c: Summary, m: Message)
    ensures Collected(cams, t, c, m).shapes == {} <==> c.shapes == {} && NoMetric(cams, m) && Apply(cams, t, m) == t
    ensures Collected(cams, t, c, m).events == c.events + if Inserts(cams, t, m) then [m] else []
  {
    if Known(cams, m) && !m.Metric? {
      var u := Apply(cams, t, m);
      match m
      case Event(id, _, _, _, _, _, _) =>
        assert Inserts(cams, t, m) ==> id in u.events && id !in t.events;
      case Open(s, _, _, _, _, _) =>
        assert s !in t.intervals ==> s in u.intervals;
      case Close(s, _, _, _, _, _) =>
        assert IsOpen(t, s) ==> u.intervals[s].end.Some?;
    }
    assert Collected(cams, t, c, m).shapes != {} <==
      (c.shapes != {} || !NoMetric(cams, m) || Apply(cams, t, m) != t) by {
      ShapesStay(cams, t, c, m);
    }
  }

  lemma ShapesStay(cams: Cameras, t: Tables, c: Summary, m: Message)
    ensures c.shapes <= Collected(cams, t, c, m).shapes
    ensures Collected(cams, t, c, m) == c
      || EventShape in Collected(cams, t, c, m).shapes || IntervalShape in Collected(cams, t, c, m).shapes
      || MetricShape in Collected(cams, t, c, m).shapes
  {
  }

  /**
   * A transaction is announced unless it wrote no metric and left every row as it was; and the events it announces
   * are those it inserted.
   */
  lemma {:induction false} SilentIff(cams: Cameras, t: Tables, ms: seq<Message>)
    ensures CollectedAll(cams, t, ms).shapes == {} <==> !WritesMetric(cams, ms) && ApplyAll(cams, t, ms) == t
    ensures CollectedAll(cams, t, ms).events == Announced(cams, t, ms)
  {
    if ms != [] {
      var front, last := ms[..|ms| - 1], ms[|ms| - 1];
      SilentIff(cams, t, front);
      OneIsSilentIff(cams, ApplyAll(cams, t, front), CollectedAll(cams, t, front), last);
      assert WritesMetric(cams, ms) <==> WritesMetric(cams, front) || !NoMetric(cams, last);
      hide Apply;
      hide Collected;
      RunGrows(cams, t, front);
    }
  }

  /** The n-th message wrote something: a metric, or a change of some row. */
  ghost predicate Wrote(cams: Cameras, t: Tables, ms: seq<Message>, n: nat)
    requires n < |ms|
  {
    var before := ApplyAll(cams, t, ms[..n]);
    !NoMetric(cams, ms[n]) || Apply(cams, before, ms[n]) != before
  }

  ghost predicate WroteBy(cams: Cameras, t: Tables, ms: seq<Message>, p: Message -> bool) {
    exists n: nat :: n < |ms| && p(ms[n]) && Wrote(cams, t, ms, n)
  }

  function FromCamera(camera: int): Message -> bool {
    (m: Message) => CameraOf(m) == Some(camera)
  }

  function OfUseCase(useCase: UseCase): Message -> bool {
    (m: Message) => m.useCase == useCase
  }

  /** The messages that write rows of the shape themselves; a restart also ends intervals. */
  function OfShape(shape: Shape): Message -> bool {
    (m: Message) =>
      match shape
      case EventShape => m.Event?
      case IntervalShape => m.Open? || m.Close?
      case MetricShape => m.Metric?
  }

  /** Some restart among the messages ended an interval. */
  ghost predicate EndedSome(cams: Cameras, t: Tables, ms: seq<Message>) {
    exists n: nat :: n < |ms| && EndsSome(cams, ApplyAll(cams, t, ms[..n]), ms[n])
  }

  lemma CollectedOne(cams: Cameras, t: Tables, c: Summary, m: Message)
    ensures var d := Collected(cams, t, c, m);
      var wrote := !NoMetric(cams, m) || Apply(cams, t, m) != t;
      && (forall camera :: camera in d.cameras <==> camera in c.cameras || (wrote && CameraOf(m) == Some(camera)))
      && (forall u :: u in d.useCases <==> u in c.useCases || (wrote && m.useCase == u))
      && (EventShape in d.shapes <==> EventShape in c.shapes || (wrote && m.Event?))
      && (MetricShape in d.shapes <==> MetricShape in c.shapes || (wrote && m.Metric?))
      && (IntervalShape in d.shapes <==>
            IntervalShape in c.shapes || (wrote && (m.Open? || m.Close?)) || EndsSome(cams, t, m))
  {
    WritesIff(cams, t, m);
    hide Apply;
  }

  /** When a message of each kind writes. */
  lemma WritesIff(cams: Cameras, t: Tables, m: Message)
    ensures var wrote := !NoMetric(cams, m) || Apply(cams, t, m) != t;
      wrote <==>
        (Known(cams, m)
         && match m
            case Event(_, _, _, _, _, _, _) => Inserts(cams, t, m)
            case Open(session, _, _, _, _, _) => session !in t.intervals
            case Close(session, _, _, _, _, _) => IsOpen(t, session)
            case Metric(_, _, _, _, _) => true)
  {
    OneIsSilentIff(cams, t, Nothing, m);
  }

  lemma WroteFront(cams: Cameras, t: Tables, ms: seq<Message>, n: nat)
    requires ms != [] && n < |ms| - 1
    ensures Wrote(cams, t, ms, n) <==> Wrote(cams, t, ms[..|ms| - 1], n)
  {
    assert ms[..|ms| - 1][..n] == ms[..n];
  }

  lemma WroteByStep(cams: Cameras, t: Tables, ms: seq<Message>, p: Message -> bool)
    requires ms != []
    ensures WroteBy(cams, t, ms, p) <==>
      WroteBy(cams, t, ms[..|ms| - 1], p) || (p(ms[|ms| - 1]) && Wrote(cams, t, ms, |ms| - 1))
  {
    var front := ms[..|ms| - 1];
    forall n: nat | n < |front|
      ensures Wrote(cams, t, ms, n) <==> Wrote(cams, t, front, n)
    {
      WroteFront(cams, t, ms, n);
    }
    hide Wrote;
    if n: nat :| n < |front| && p(front[n]) && Wrote(cams, t, front, n) {
      assert p(ms[n]) && Wrote(cams, t, ms, n);
    }
    if n: nat :| n < |ms| && p(ms[n]) && Wrote(cams, t, ms, n) {
      if n < |front| {
        assert p(front[n]) && Wrote(cams, t, front, n);
      }
    }
  }

  lemma EndedSomeStep(cams: Cameras, t: Tables, ms: seq<Message>)
    requires ms != []
    ensures var front := ms[..|ms| - 1];
      EndedSome(cams, t, ms) <==> EndedSome(cams, t, front) || EndsSome(cams, ApplyAll(cams, t, front), ms[|front|])
  {
    var front := ms[..|ms| - 1];
    hide EndsSome;
    assert forall n: nat | n <= |front| :: front[..n] == ms[..n];
    assert front[..|front|] == front;
    if EndsSome(cams, ApplyAll(cams, t, front), ms[|front|]) {
      assert EndsSome(cams, ApplyAll(cams, t, ms[..|front|]), ms[|front|]);
    }
    if n: nat :| n < |front| && EndsSome(cams, ApplyAll(cams, t, front[..n]), front[n]) {
      assert EndsSome(cams, ApplyAll(cams, t, ms[..n]), ms[n]);
    }
  }

  /**
   * What a commit announces: the cameras and use cases of exactly the messages that wrote something, and the shapes of
   * what was written, with the interval shape also for a restart that ended an interval.
   */
  lemma {:induction false} SummaryIsWhatWasWritten(cams: Cameras, t: Tables, ms: seq<Message>)
    ensures var c := CollectedAll(cams, t, ms);
      && (forall camera :: camera in c.cameras <==> WroteBy(cams, t, ms, FromCamera(camera)))
      && (forall u :: u in c.useCases <==> WroteBy(cams, t, ms, OfUseCase(u)))
      && (EventShape in c.shapes <==> WroteBy(cams, t, ms, OfShape(EventShape)))
      && (MetricShape in c.shapes <==> WroteBy(cams, t, ms, OfShape(MetricShape)))
      && (IntervalShape in c.shapes <==> WroteBy(cams, t, ms, OfShape(IntervalShape)) || EndedSome(cams, t, ms))
  {
    hide Collected;
    if ms != [] {
      var front, last := ms[..|ms| - 1], ms[|ms| - 1];
      SummaryIsWhatWasWritten(cams, t, front);
      CollectedOne(cams, ApplyAll(cams, t, front), CollectedAll(cams, t, front), last);
      EndedSomeStep(cams, t, ms);
      var wrote := Wrote(cams, t, ms, |ms| - 1);
      forall p: Message -> bool
        ensures WroteBy(cams, t, ms, p) <==> WroteBy(cams, t, front, p) || (p(last) && wrote)
      {
        WroteByStep(cams, t, ms, p);
      }
      hide WroteBy;
      hide EndedSome;
      hide Apply;
      hide EndsSome;
    }
  }

  // ---- the service and its consumer -----------------------------------------------------------------------

  /** Once an error ended the pass, the remaining entries change nothing. */
  lemma {:induction false} StaysThrown(cams: Cameras, s: State, ids: seq<nat>, n: nat, each: nat -> Faults)
    requires InStream(s, ids) && n <= |ids| && OneByOne(cams, s, ids[..n], each).thrown
    ensures OneByOne(cams, s, ids, each) == OneByOne(cams, s, ids[..n], each)
    decreases |ids|
  {
    if n == |ids| {
      assert ids[..n] == ids;
    } else {
      var front := ids[..|ids| - 1];
      assert front[..n] == ids[..n];
      StaysThrown(cams, s, front, n, each);
    }
  }

  /** What was announced before does not matter to a write. */
  lemma WriteSays(cams: Cameras, s: State, id: nat, said: seq<Message>)
    requires id < |s.stream|
    ensures var t := Write(cams, s, id);
      && s.said <= t.said && Write(cams, s.(said := said), id) == t.(said := said + t.said[|s.said|..])
  {
    hide Apply;
  }

  lemma WriteOneMore(cams: Cameras, s: State, ids: seq<nat>, n: nat)
    requires InStream(s, ids) && n < |ids|
    ensures WriteAll(cams, s, ids[..n + 1]) == Write(cams, WriteAll(cams, s, ids[..n]), ids[n])
  {
    assert ids[..n + 1][..n] == ids[..n];
    hide Write;
  }

  class Ingest {
    const cams: Cameras
    var stream: seq<Parsed>
    var delivered: nat
    var acked: set<nat>
    var failures: map<nat, nat>
    var tables: Tables
    var letters: seq<nat>
    var said: seq<Message>
    ghost var history: seq<Done>
    ghost var unsaid: bool

    ghost function Value(): State
      reads this
    {
      State(stream, delivered, acked, failures, tables, letters, history, said, unsaid)
    }

    constructor (cams: Cameras)
      ensures this.cams == cams && Value() == Fresh && Base(Value()) && RowsOk(cams, Value())
    {
      this.cams := cams;
      stream, delivered, acked, failures := [], 0, {}, map[];
      tables, letters, said, history, unsaid := NoRows, [], [], [], false;
      new;
      RunKeepsBase(cams, []);
      RunKeepsRows(cams, []);
    }

    /** One entry within a transaction; `changes` is what it will announce of it. */
    method ApplyEntry(id: nat) returns (changes: seq<Message>)
      requires id < |stream|
      modifies this`tables, this`letters, this`history
      ensures Write(cams, old(Value()), id) == Value().(said := old(said) + changes)
    {
      hide Apply;
      var entry := stream[id];
      if entry.Invalid? || IsDead(cams, tables, entry.message) {
        letters := letters + [id];
      }
      changes := [];
      if entry.Valid? {
        if Inserts(cams, tables, entry.message) {
          changes := [entry.message];
        }
        tables := Apply(cams, tables, entry.message);
      }
      history := history + [Wrote(id)];
    }

    /** One transaction for all the entries, in stream order; `changes` is what it will announce. */
    method ApplyEntries(ids: seq<nat>) returns (changes: seq<Message>)
      requires InStream(Value(), ids)
      modifies this`tables, this`letters, this`history
      ensures WriteAll(cams, old(Value()), ids) == Value().(said := old(said) + changes)
    {
      changes := [];
      assert WriteAll(cams, old(Value()), ids[..0]) == Value().(said := old(said) + changes);
      hide Write;
      hide WriteAll;
      for n := 0 to |ids|
        invariant WriteAll(cams, old(Value()), ids[..n]) == Value().(said := old(said) + changes)
      {
        WriteOneMore(cams, old(Value()), ids, n);
        ghost var before := Value();
        var more := ApplyEntry(ids[n]);
        WriteSays(cams, before, ids[n], old(said) + changes);
        changes := changes + more;
      }
      assert ids[..|ids|] == ids;
    }

    /** XACK, then HDEL. */
    method Ack(ids: seq<nat>, ack: AckOutcome) returns (thrown: bool)
      modifies this`acked, this`failures
      ensures Value() == Acked(old(Value()), ids, ack) && thrown == !ack.AckOk?
    {
      thrown := !ack.AckOk?;
      if ack.Crashed? {
        return;
      }
      if ack.AckOk? || ack.HdelLost? {
        acked := acked + Ids(ids);
      }
      if ack.AckOk? {
        failures := failures - Ids(ids);
      }
    }

    /** What was written is announced even when the XACK fails; only a crash keeps it back. */
    method AckThenPublish(ids: seq<nat>, changes: seq<Message>, ack: AckOutcome) returns (thrown: bool)
      modifies this`acked, this`failures, this`unsaid, this`said
      ensures var w := if ack.Crashed? then old(Value()).(unsaid := true) else old(Value()).(said := old(said) + changes);
        Value() == Acked(w, ids, ack) && thrown == !ack.AckOk?
    {
      thrown := Ack(ids, ack);
      if ack.Crashed? {
        unsaid := true;
      } else {
        said := said + changes;
      }
    }

    method Commit(ids: seq<nat>, ack: AckOutcome) returns (thrown: bool)
      requires InStream(Value(), ids)
      modifies this`tables, this`letters, this`history, this`acked, this`failures, this`unsaid, this`said
      ensures Value() == Committed(cams, old(Value()), ids, ack) && thrown == !ack.AckOk?
    {
      hide WriteAll;
      hide Acked;
      var changes := ApplyEntries(ids);
      ghost var w := WriteAll(cams, old(Value()), ids);
      assert w.(said := old(said)) == Value();
      thrown := AckThenPublish(ids, changes, ack);
    }

    /** A transaction that is reported as failed; what its commit kept all the same is not announced. */
    method FailTransaction(ids: seq<nat>, f: Faults)
      requires InStream(Value(), ids)
      modifies this`tables, this`letters, this`history, this`unsaid
      ensures Value() == Failed(cams, old(Value()), ids, f)
    {
      if f.kept {
        var changes := ApplyEntries(ids);
        unsaid := true;
        hide WriteAll;
        assert Value() == WriteAll(cams, old(Value()), ids).(said := old(said), unsaid := true);
      }
    }

    /** Counts a failed attempt; `dead` when it was the last one and the entry has its dead letter. */
    method Fail(id: nat, camera: Option<int>, f: Faults, ghost held: set<Option<int>>) returns (dead: bool, thrown: bool)
      modifies this`failures, this`letters, this`history, this`acked
      ensures CountFailure(Loop(old(Value()), held, false), id, camera, f) ==
        Loop(Value(), if dead || thrown then held else held + {camera}, thrown)
    {
      dead, thrown := false, false;
      if !f.counts {
        return false, true;
      }
      var attempts := if id in failures then failures[id] + 1 else 1;
      failures := failures[id := attempts];
      if attempts < MAX_ATTEMPTS {
        return;
      }
      if !f.buries {
        return false, true;
      }
      letters := letters + [id];
      history := history + [Buried(id)];
      dead := true;
      thrown := Ack([id], f.buryAck);
    }

    /** Each entry in its own transaction; a failed one holds back the later ones of its camera. */
    method ApplyOneByOne(ids: seq<nat>, each: nat -> Faults) returns (retry: bool, thrown: bool)
      requires InStream(Value(), ids)
      modifies this`tables, this`letters, this`history, this`acked, this`failures, this`unsaid, this`said
      ensures var l := OneByOne(cams, old(Value()), ids, each);
        Value() == l.state && thrown == l.thrown && (!thrown ==> (retry <==> l.held != {}))
    {
      retry, thrown := false, false;
      var held: set<Option<int>> := {};
      for n := 0 to |ids|
        invariant stream == old(stream) && !thrown
        invariant OneByOne(cams, old(Value()), ids[..n], each) == Loop(Value(), held, false)
        invariant retry <==> held != {}
      {
        assert ids[..n + 1][..n] == ids[..n];
        ghost var next := Turn(cams, Loop(Value(), held, false), ids[n], each(ids[n]));
        assert OneByOne(cams, old(Value()), ids[..n + 1], each) == next;
        hide OneByOne;
        var camera := Source(stream[ids[n]]);
        if None in held || (if camera.None? then held != {} else camera in held) {
          continue;
        }
        var f := each(ids[n]);
        if f.tx.Commits? {
          thrown := Commit([ids[n]], f.ack);
        } else {
          FailTransaction([ids[n]], f);
          if f.tx.EntryFault? {
            var dead;
            dead, thrown := Fail(ids[n], camera, f, held);
            if !dead && !thrown {
              held, retry := held + {camera}, true;
            }
          } else {
            thrown := true;
          }
        }
        assert next == Loop(Value(), if thrown then next.held else held, thrown);
        if thrown {
          StaysThrown(cams, old(Value()), ids, n + 1, each);
          return;
        }
      }
      assert ids[..|ids|] == ids;
    }

    /** `thrown` when the batch said nothing about its entries, or an error ended it half-way. */
    method ProcessBatch(ids: seq<nat>, batch: Faults, each: nat -> Faults) returns (retry: bool, thrown: bool)
      requires InStream(Value(), ids)
      modifies this`tables, this`letters, this`history, this`acked, this`failures, this`unsaid, this`said
      ensures Value() == Processed(cams, old(Value()), ids, batch, each)
    {
      hide Committed;
      hide OneByOne;
      retry, thrown := false, false;
      if |ids| == 0 {
        return;
      }
      if batch.tx.Commits? {
        thrown := Commit(ids, batch.ack);
      } else {
        FailTransaction(ids, batch);
        if batch.tx.EntryFault? {
          retry, thrown := ApplyOneByOne(ids, each);
        } else {
          thrown := true;
        }
      }
    }

    /** This consumer's pending entries if it has any, else new ones. */
    method Read() returns (ids: seq<nat>)
      requires delivered <= |stream|
      modifies this`delivered
      ensures Value() == Delivered(old(Value())) && ids == ReadIds(Value()) && InStream(Value(), ids)
    {
      PendingInStream(acked, delivered);
      ids := PendingBelow(acked, delivered);
      if ids == [] {
        delivered := delivered + Min(COUNT, |stream| - delivered);
        PendingInStream(acked, delivered);
        ids := PendingBelow(acked, delivered);
      }
      ids := ids[..Min(COUNT, |ids|)];
    }

    /** One round of the consumer's loop. */
    method RunOnce(batch: Faults, each: nat -> Faults)
      requires Base(Value()) && RowsOk(cams, Value())
      modifies this
      ensures Base(Value()) && RowsOk(cams, Value()) && Value() == Next(cams, old(Value()), Pass(batch, each))
    {
      PassKeepsBase(cams, Value(), batch, each);
      PassKeepsRows(cams, Value(), batch, each);
      assert delivered <= |stream|;
      hide Base;
      hide RowsOk;
      hide Delivered;
      hide Processed;
      var ids := Read();
      var retry, thrown := ProcessBatch(ids, batch, each);
    }
  }
}
